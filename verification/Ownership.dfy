/**
 Conservation and exclusive ownership: every job handed to submitJob is in exactly one place.
 */
module Ownership {
  import opened Jobs
  import opened StableQueue
  import opened MlfqSpec
  import opened Protocol
  import opened WorkerTally

  function InQueues(qs: Queues<JobInfo>, x: JobInfo): nat {
    multiset(qs[0])[x] + multiset(qs[1])[x] + multiset(qs[2])[x]
  }

  function InHands(d: Dispatcher, a: Aging, x: JobInfo): nat {
    HandOf(d)[x] + multiset(BufferOf(a))[x]
  }

  function WithSubmitter(registered: set<JobInfo>, counted: set<JobInfo>, x: JobInfo): nat {
    One(x in registered) + One(x in counted)
  }

  function Done(completed: set<JobInfo>, failed: set<JobInfo>, abandoned: set<JobInfo>, x: JobInfo): nat {
    One(x in completed) + One(x in failed) + One(x in abandoned)
  }

  /** In how many places a job is, each place counted with its multiplicity: in the queues, in the
      dispatcher's hand or the aging thread's buffer, with workers, with its submitter, or done with. */
  function Copies(s: State, x: JobInfo): nat {
    InQueues(s.queues, x) + InHands(s.dispatcher, s.aging, x) + Total(s.workers).jobs[x]
    + WithSubmitter(s.registered, s.counted, x) + Done(s.completed, s.failed, s.abandoned, x)
  }

  ghost predicate Owned(s: State) {
    && (forall x: JobInfo :: Copies(s, x) == One(x in s.jobs))
    && (forall i | 0 <= i < |s.workers| :: s.workers[i].job in s.jobs)
    && (forall x | x in s.jobs :: x.cpu >= 0 && x.memory >= 0)
  }

  lemma InitOwned()
    ensures Owned(Init())
  {
  }

  lemma LevelChange(qs: Queues<JobInfo>, l: nat, q: seq<JobInfo>, x: JobInfo)
    requires l < MLFQ_LEVELS
    ensures InQueues(qs[l := q], x) + multiset(qs[l])[x] == InQueues(qs, x) + multiset(q)[x]
  {
  }

  lemma HeadCounts(q: seq<JobInfo>, x: JobInfo)
    requires q != []
    ensures multiset(q)[x] == One(q[0] == x) + multiset(q[1..])[x]
  {
    assert q == [q[0]] + q[1..];
  }

  lemma PopCounts(qs: Queues<JobInfo>, x: JobInfo)
    ensures InQueues(Popped(qs), x) + One(Front(qs) < MLFQ_LEVELS && x == qs[Front(qs)][0]) == InQueues(qs, x)
    ensures forall l | 0 <= l < MLFQ_LEVELS && x in Popped(qs)[l] :: x in qs[l]
  {
    var l := Front(qs);
    if l < MLFQ_LEVELS {
      HeadCounts(qs[l], x);
      LevelChange(qs, l, qs[l][1..], x);
    }
  }

  lemma InsertCounts(qs: Queues<JobInfo>, l: nat, x: JobInfo, y: JobInfo)
    requires l < MLFQ_LEVELS
    ensures InQueues(qs[l := Insert(InfoKey, qs[l], x)], y) == InQueues(qs, y) + One(x == y)
    ensures y in Insert(InfoKey, qs[l], x) <==> y == x || y in qs[l]
  {
  }

  lemma CountedOnce(s: State, x: JobInfo)
    requires Owned(s)
    ensures Copies(s, x) == One(x in s.jobs)
  {
  }

  lemma JobsOfStep(ws: seq<Worker>, i: nat, w: Worker, x: JobInfo)
    requires i < |ws|
    ensures Total(ws[i := w]).jobs[x] + One(Owns(ws[i].pc) && ws[i].job == x)
            == Total(ws).jobs[x] + One(Owns(w.pc) && w.job == x)
  {
    hide Total, Others, Plus, Weight;
    TotalOfStep(ws, i, w);
    JobsOfOneMore(Others(ws, i), ws[i], x);
    JobsOfOneMore(Others(ws, i), w, x);
  }

  /** A job that a worker owns is nowhere else. */
  lemma NotElsewhere(s: State, i: nat)
    requires Owned(s) && i < |s.workers| && Owns(s.workers[i].pc)
    ensures var x := s.workers[i].job;
            && x in s.jobs && (forall l | 0 <= l < MLFQ_LEVELS :: x !in s.queues[l])
            && (s.dispatcher.Hand? ==> s.dispatcher.job != x) && x !in BufferOf(s.aging)
            && x !in s.registered && x !in s.counted
            && x !in s.completed && x !in s.failed && x !in s.abandoned
            && (forall k | 0 <= k < |s.workers| && k != i && Owns(s.workers[k].pc) :: s.workers[k].job != x)
  {
    hide Total, Owned;
    var x := s.workers[i].job;
    CountedOnce(s, x);
    JobsOfStep(s.workers, i, s.workers[i].(pc := Exited), x);
    forall k | 0 <= k < |s.workers| && k != i && Owns(s.workers[k].pc) ensures s.workers[k].job != x {
      if s.workers[k].job == x {
        TwoOwners(s.workers, i, k);
        assert false;
      }
    }
    forall l | 0 <= l < MLFQ_LEVELS ensures x !in s.queues[l] {
      assert x !in multiset(s.queues[l]);
    }
    assert x !in multiset(BufferOf(s.aging));
  }

  lemma SubmitMoves(s: State, step: Step, x: JobInfo)
    requires Owned(s) && Enabled(s, step) && (step.Register? || step.Count? || step.PushNew? || step.Stop?)
    ensures Copies(Apply(s, step), x) == One(x in Apply(s, step).jobs)
  {
    hide Total, Insert, Owned, InQueues, InHands, Done;
    CountedOnce(s, x);
    match step {
      case Count(y) => CountedOnce(s, y);
      case PushNew(y) => LevelChange(s.queues, 0, Insert(InfoKey, s.queues[0], y), x);
      case _ =>
    }
  }

  lemma SameCopies(s: State, s': State, x: JobInfo)
    requires s'.queues == s.queues && HandOf(s'.dispatcher) == HandOf(s.dispatcher) && BufferOf(s'.aging) == BufferOf(s.aging)
    requires s'.registered == s.registered && s'.counted == s.counted
    requires s'.completed == s.completed && s'.failed == s.failed && s'.abandoned == s.abandoned
    requires Total(s'.workers).jobs[x] == Total(s.workers).jobs[x]
    ensures Copies(s', x) == Copies(s, x)
  {
  }

  lemma PopMoves(s: State, lvl: nat, x: JobInfo)
    requires s.dispatcher.PopFrom? && lvl < MLFQ_LEVELS
    ensures Copies(PopLevel(s, lvl), x) == Copies(s, x)
  {
    hide Total, InQueues;
    if s.queues[lvl] != [] {
      HeadCounts(s.queues[lvl], x);
      LevelChange(s.queues, lvl, s.queues[lvl][1..], x);
    }
  }

  lemma SpawnMoves(s: State, hint: int, x: JobInfo)
    requires s.dispatcher.Hand?
    ensures Copies(Spawn(s, s.dispatcher.job, hint), x) == Copies(s, x)
  {
  }

  lemma QuietDispatch(s: State, s': State, x: JobInfo)
    requires DispatchFrame(s, s') && !s.dispatcher.PopFrom? && !s.dispatcher.Hand?
    ensures Copies(s', x) == Copies(s, x)
  {
  }

  lemma DispatchMoves(s: State, sweep: bool, hint: int, x: JobInfo)
    requires DispatcherReady(s)
    ensures Copies(DoDispatch(s, sweep, hint), x) == Copies(s, x)
  {
    if s.dispatcher.PopFrom? {
      hide Copies, PopLevel;
      PopMoves(s, s.dispatcher.lvl, x);
    } else if s.dispatcher.Hand? {
      hide Copies, Spawn;
      SpawnMoves(s, hint, x);
    } else {
      hide Copies, DoDispatch, DispatchFrame;
      DispatchFrames(s, sweep, hint);
      QuietDispatch(s, DoDispatch(s, sweep, hint), x);
    }
  }

  lemma DrainMoves(s: State, lvl: nat, x: JobInfo)
    requires s.aging == DrainFrom(lvl) && lvl < MLFQ_LEVELS
    ensures Copies(DrainLevel(s, lvl), x) == Copies(s, x)
  {
    hide Total, Taken, Kept, InQueues;
    var q, flags := s.queues[lvl], AgeFlags(s.jobs, s.queues[lvl]);
    DrainSplits(q, flags, AGED_BUF);
    assert multiset(q)[x] == multiset(Taken(q, flags, AGED_BUF))[x] + multiset(Kept(q, flags, AGED_BUF))[x];
    LevelChange(s.queues, lvl, Kept(q, flags, AGED_BUF), x);
  }

  lemma PromoteMoves(s: State, lvl: nat, buf: seq<JobInfo>, x: JobInfo)
    requires s.aging == Promote(lvl, buf) && 1 <= lvl < MLFQ_LEVELS && buf != [] && buf[0] in s.jobs
    ensures Copies(PromoteHead(s, lvl, buf), x) == Copies(s, x)
  {
    hide Total, Insert, InQueues;
    HeadCounts(buf, x);
    LevelChange(s.queues, lvl - 1, Insert(InfoKey, s.queues[lvl - 1], buf[0]), x);
  }

  lemma AgeMoves(s: State, x: JobInfo)
    requires AgingReady(s)
    ensures Copies(DoAge(s), x) == Copies(s, x)
  {
    hide Copies, DrainLevel, PromoteHead;
    if s.aging.DrainFrom? {
      DrainMoves(s, s.aging.lvl, x);
    } else if s.aging.Promote? && s.aging.buf != [] {
      PromoteMoves(s, s.aging.lvl, s.aging.buf, x);
    } else {
      SameCopies(s, DoAge(s), x);
    }
  }

  lemma FailMoves(s: State, i: nat, x: JobInfo)
    requires HasWorker(s, i) && s.workers[i].pc == Failing && s.workers[i].job !in s.failed
    ensures Copies(MarkFailed(s, i), x) == Copies(s, x)
  {
    hide Total, InQueues;
    JobsOfStep(s.workers, i, s.workers[i].(pc := FailPending), x);
  }

  lemma RequeueMoves(s: State, i: nat, x: JobInfo)
    requires HasWorker(s, i) && 0 <= s.jobs[s.workers[i].job].level < MLFQ_LEVELS && s.workers[i].pc == Deciding
    ensures Copies(Requeue(s, i), x) == Copies(s, x)
  {
    hide Total, InQueues, Insert;
    var w := s.workers[i];
    JobsOfStep(s.workers, i, w.(pc := Exited), x);
    var l := Requeued(s.jobs[w.job]).level;
    LevelChange(s.queues, l, Insert(InfoKey, s.queues[l], w.job), x);
  }

  lemma CompleteMoves(s: State, i: nat, x: JobInfo)
    requires HasWorker(s, i) && s.workers[i].pc == Deciding && s.workers[i].job !in s.completed
    ensures Copies(Complete(s, i), x) == Copies(s, x)
  {
    hide Total, InQueues;
    JobsOfStep(s.workers, i, s.workers[i].(pc := CompletePending), x);
  }

  lemma AbandonMoves(s: State, i: nat, x: JobInfo)
    requires HasWorker(s, i) && s.workers[i].pc == Deciding && s.workers[i].job !in s.abandoned
    ensures Copies(SetPc(s.(abandoned := s.abandoned + {s.workers[i].job}), i, Exited), x) == Copies(s, x)
  {
    hide Total, InQueues;
    JobsOfStep(s.workers, i, s.workers[i].(pc := Exited), x);
  }

  lemma DecideMoves(s: State, i: nat, x: JobInfo)
    requires HasWorker(s, i) && 0 <= s.jobs[s.workers[i].job].level < MLFQ_LEVELS && s.workers[i].pc == Deciding
    requires s.workers[i].job !in s.completed && s.workers[i].job !in s.abandoned
    ensures Copies(Decide(s, i), x) == Copies(s, x)
  {
    hide Copies, Complete, Requeue, SetPc;
    CompleteMoves(s, i, x);
    RequeueMoves(s, i, x);
    AbandonMoves(s, i, x);
  }

  /** Any other worker step keeps the job with its worker. */
  lemma KeepsOwning(s: State, i: nat, hint: int)
    requires Enabled(s, Work(i, hint)) && s.workers[i].pc != Failing && s.workers[i].pc != Deciding
    ensures i < |DoWork(s, i, hint).workers| && Owns(DoWork(s, i, hint).workers[i].pc) == Owns(s.workers[i].pc)
  {
    hide DoWork;
    if HoldsSlotOrClaims(s.workers[i].pc) {
      RunKeepsOwning(s, i, hint);
    } else {
      AroundKeepsOwning(s, i, hint);
    }
  }

  lemma AroundKeepsOwning(s: State, i: nat, hint: int)
    requires Enabled(s, Work(i, hint)) && !HoldsSlotOrClaims(s.workers[i].pc)
    requires s.workers[i].pc != Failing && s.workers[i].pc != Deciding
    ensures i < |DoWork(s, i, hint).workers| && Owns(DoWork(s, i, hint).workers[i].pc) == Owns(s.workers[i].pc)
  {
    hide RunStep, MarkFailed, Decide, Fits, Released;
  }

  lemma RunKeepsOwning(s: State, i: nat, hint: int)
    requires Enabled(s, Work(i, hint)) && HoldsSlotOrClaims(s.workers[i].pc)
    ensures i < |DoWork(s, i, hint).workers| && Owns(DoWork(s, i, hint).workers[i].pc)
  {
    hide AroundStep, FindSlot, StartSlot, RunStarted, TickedOnce, QuantumExpired;
  }

  lemma QuietWork(s: State, s': State, i: nat, x: JobInfo)
    requires WorkFrame(s, s', i) && SamePlaces(s, s') && Owns(s'.workers[i].pc) == Owns(s.workers[i].pc)
    ensures Copies(s', x) == Copies(s, x)
  {
    hide Total, InQueues, InHands, WithSubmitter, Done;
    JobsOfStep(s.workers, i, s'.workers[i], x);
  }

  lemma WorkMoves(s: State, i: nat, hint: int, x: JobInfo)
    requires Owned(s) && Enabled(s, Work(i, hint))
    ensures Copies(DoWork(s, i, hint), x) == Copies(s, x)
  {
    hide Copies, DoWork, WorkFrame, SamePlaces, MarkFailed, Decide, Owned;
    if s.workers[i].pc == Failing || s.workers[i].pc == Deciding {
      EndIs(s, i, hint);
      NotElsewhere(s, i);
      if s.workers[i].pc == Failing {
        FailMoves(s, i, x);
      } else {
        DecideMoves(s, i, x);
      }
    } else {
      WorkFrames(s, i, hint);
      KeepsOwning(s, i, hint);
      QuietWork(s, DoWork(s, i, hint), i, x);
    }
  }

  lemma SubmitOwned(s: State, step: Step)
    requires Owned(s) && Enabled(s, step) && (step.Register? || step.Count? || step.PushNew? || step.Stop?)
    ensures Owned(Apply(s, step))
  {
    hide Copies, Apply, Owned;
    forall x: JobInfo ensures Copies(Apply(s, step), x) == One(x in Apply(s, step).jobs) {
      SubmitMoves(s, step, x);
    }
    SubmitKnows(s, step);
    OwnedFrom(Apply(s, step));
  }

  lemma OwnedFrom(s: State)
    requires forall x: JobInfo :: Copies(s, x) == One(x in s.jobs)
    requires forall i | 0 <= i < |s.workers| :: s.workers[i].job in s.jobs
    requires forall x | x in s.jobs :: x.cpu >= 0 && x.memory >= 0
    ensures Owned(s)
  {
  }

  lemma SubmitKnows(s: State, step: Step)
    requires Owned(s) && Enabled(s, step) && (step.Register? || step.Count? || step.PushNew? || step.Stop?)
    ensures var s' := Apply(s, step);
            && (forall i | 0 <= i < |s'.workers| :: s'.workers[i].job in s'.jobs)
            && (forall x | x in s'.jobs :: x.cpu >= 0 && x.memory >= 0)
  {
    hide Copies, Insert;
  }

  lemma DispatchOwned(s: State, sweep: bool, hint: int)
    requires Owned(s) && DispatcherReady(s)
    ensures Owned(DoDispatch(s, sweep, hint))
  {
    hide Owned, DoDispatch, Spawn;
    if s.dispatcher.Hand? {
      DispatchSpawns(s, sweep, hint);
      SpawnOwned(s, hint);
    } else {
      QuietDispatchOwned(s, sweep, hint);
    }
  }

  lemma DispatchSpawns(s: State, sweep: bool, hint: int)
    requires s.dispatcher.Hand?
    ensures DoDispatch(s, sweep, hint) == Spawn(s, s.dispatcher.job, hint)
  {
  }

  lemma QuietDispatchOwned(s: State, sweep: bool, hint: int)
    requires Owned(s) && DispatcherReady(s) && !s.dispatcher.Hand?
    ensures Owned(DoDispatch(s, sweep, hint))
  {
    hide Copies, DoDispatch;
    var s' := DoDispatch(s, sweep, hint);
    forall x: JobInfo ensures Copies(s', x) == Copies(s, x) {
      DispatchMoves(s, sweep, hint, x);
    }
    DispatchFrames(s, sweep, hint);
  }

  lemma SpawnOwned(s: State, hint: int)
    requires Owned(s) && s.dispatcher.Hand?
    ensures Owned(Spawn(s, s.dispatcher.job, hint))
  {
    hide Copies;
    var s' := Spawn(s, s.dispatcher.job, hint);
    HandIsSubmitted(s);
    forall x: JobInfo ensures Copies(s', x) == Copies(s, x) {
      SpawnMoves(s, hint, x);
    }
  }

  lemma HandIsSubmitted(s: State)
    requires Owned(s) && s.dispatcher.Hand?
    ensures s.dispatcher.job in s.jobs
  {
    hide InQueues, Total;
    assert Copies(s, s.dispatcher.job) >= 1;
  }

  lemma WorkOwned(s: State, i: nat, hint: int)
    requires Owned(s) && Enabled(s, Work(i, hint))
    ensures Owned(DoWork(s, i, hint))
  {
    hide Copies, DoWork, SamePlaces;
    var s' := DoWork(s, i, hint);
    forall x: JobInfo ensures Copies(s', x) == Copies(s, x) {
      WorkMoves(s, i, hint, x);
    }
    WorkFrames(s, i, hint);
  }

  lemma AgeOwned(s: State)
    requires Owned(s) && AgingReady(s)
    ensures Owned(DoAge(s))
  {
    hide Copies, DoAge;
    var s' := DoAge(s);
    forall x: JobInfo ensures Copies(s', x) == Copies(s, x) {
      AgeMoves(s, x);
    }
    AgeFrames(s);
  }

  /** Every step of every thread keeps each job in exactly one place. */
  lemma StepKeepsOwned(s: State, step: Step)
    requires Owned(s) && Enabled(s, step)
    ensures Owned(Apply(s, step))
  {
    hide Owned, DoDispatch, DoAge, DoWork, DoRegister;
    match step {
      case Dispatch(sweep, hint) => DispatchOwned(s, sweep, hint);
      case Age => AgeOwned(s);
      case Work(i, hint) => WorkOwned(s, i, hint);
      case _ => SubmitOwned(s, step);
    }
  }
}
