/**
 The concurrent protocol as a transition system. Any number of submitters and workers, the
 dispatcher, and the aging thread take turns; one step is one section under a lock, one semaphore
 operation, or one access to a shared atomic. Field writes that precede a push are part of the
 push, because until then the job is reachable from the thread that writes it alone.

 The job records also carry history variables, which no step reads to decide anything.
 */
module Protocol {
  import opened Jobs
  import opened StableQueue
  import opened MlfqSpec

  const MAX_CONCURRENT := 4
  const TOTAL_CPU := 100
  const TOTAL_MEMORY := 4096

  function InfoKey(x: JobInfo): Key {
    Key(x.priority.Value(), x.submitTime)
  }

  /** The mutable fields of a job, then the history of it: runs started (slot claims), preemption
      requests won in the current run, ticks executed after such a win, ticks of the current run,
      sweeps started when it was submitted, the number of the last sweep that reached it, and whether
      a preemption request or a promotion has ever hit it. */
  datatype JobRec = JobRec(
    status: Status, elapsed: int, slice: int, level: int, aging: int, wait: int, preemptions: int,
    runs: nat, wins: nat, late: nat, runTicks: nat, born: nat, ticked: nat, disturbed: bool)

  /** Where a worker stands in workerFunc; each value names what it does next. */
  datatype Pc =
    | Spawned          // waits for a permit
    | Waited           // checks the budgets
    | Denied           // returns the permit
    | Failing          // marks the job Failed
    | FailPending      // counts the failure
    | Granted          // claims a slot
    | Claimed          // marks the job Running
    | LoopTest         // tests elapsed ticks and the running flag
    | StatusTest       // tests for a preemption request
    | QuantumTest      // tests the quantum
    | Ticking          // executes one tick
    | Clearing         // clears its slot
    | Releasing        // gives the budgets back
    | Posting          // gives the permit back
    | Deciding         // completes, requeues or abandons the job
    | CompletePending  // counts the completion
    | Exited

  /** `preempted` is the local flag was_preempted. */
  datatype Worker = Worker(job: JobInfo, pc: Pc, slot: int, preempted: bool)

  /** One entry of active_jobs_. The table holds the job; who claimed the entry is history. */
  datatype Entry = Empty | Held(job: JobInfo, worker: nat)

  type Table = t: seq<Entry> | |t| == MAX_CONCURRENT witness [Empty, Empty, Empty, Empty]

  datatype Dispatcher =
    | Top
    | Sweep(lvl: nat)
    | Scan(slot: nat)
    | Probe(slot: nat, job: JobInfo, level: int, lvl: nat)
    | ProbeTop(slot: nat, job: JobInfo, level: int)
    | Cas(slot: nat, job: JobInfo)
    | CountWin(slot: nat, job: JobInfo)
    | PopFrom(lvl: nat)
    | Hand(job: JobInfo)
    | Stopped

  datatype Aging =
    | Idle
    | DrainFrom(lvl: nat)
    | Promote(lvl: nat, buf: seq<JobInfo>)
    | AgingStopped

  /** A better candidate that the dispatcher has seen since it last popped and that the aging thread
      has not taken since: `rival`, queued at level `at`, beats a running job of `level` and `priority`. */
  datatype Hint = Hint(level: int, priority: int, rival: JobInfo, at: nat)

  datatype State = State(
    running: bool,
    permits: int, usedCpu: int, usedMemory: int, activeCount: int,
    active: Table,
    queues: Queues<JobInfo>,
    jobs: map<JobInfo, JobRec>,
    tracked: seq<JobInfo>,
    registered: set<JobInfo>, counted: set<JobInfo>,
    dispatcher: Dispatcher, aging: Aging, workers: seq<Worker>,
    totalSubmitted: int, totalCompleted: int, totalFailed: int,
    completed: set<JobInfo>, failed: set<JobInfo>, abandoned: set<JobInfo>,
    sweeps: nat, hints: set<Hint>)

  function Init(): State {
    State(true, MAX_CONCURRENT, 0, 0, 0, [Empty, Empty, Empty, Empty], [[], [], []], map[], [], {}, {},
          Top, Idle, [], 0, 0, 0, {}, {}, {}, 0, {})
  }

  // ---------------------------------------------------------------- shared building blocks

  predicate Fits(usedCpu: int, usedMemory: int, cpu: int, memory: int) {
    usedCpu + cpu <= TOTAL_CPU && usedMemory + memory <= TOTAL_MEMORY
  }

  /** A budget after a release, with the clamp at zero. */
  function Released(used: int, amount: int): int {
    if used - amount < 0 then 0 else used - amount
  }

  type Slots = o: seq<bool> | |o| == MAX_CONCURRENT witness [false, false, false, false]

  function Occupancy(t: Table): Slots {
    [t[0].Held?, t[1].Held?, t[2].Held?, t[3].Held?]
  }

  /** The wrap-around scan for a free slot, from offset i; the start itself when there is none. */
  function FindSlot(held: Slots, start: nat, i: nat): (r: nat)
    requires start < MAX_CONCURRENT && i <= MAX_CONCURRENT
    ensures r < MAX_CONCURRENT
    decreases MAX_CONCURRENT - i
  {
    if i == MAX_CONCURRENT then start
    else if !held[(start + i) % MAX_CONCURRENT] then (start + i) % MAX_CONCURRENT
    else FindSlot(held, start, i + 1)
  }

  /** The scan goes all the way round: it finds a free slot whenever there is one. */
  lemma FindSlotFinds(held: Slots, start: nat, k: nat)
    requires start < MAX_CONCURRENT && k < MAX_CONCURRENT && !held[k]
    ensures !held[FindSlot(held, start, 0)]
  {
  }

  /** The slot is the start if that is free; in general no free slot is nearer to the start, going up
      and around; and it is the start again if nothing is free. */
  predicate NearestFree(held: Slots, start: nat, slot: nat)
    requires start < MAX_CONCURRENT
  {
    && slot < MAX_CONCURRENT && (!held[start] ==> slot == start)
    && (forall k | 0 <= k < MAX_CONCURRENT && !held[k] ::
          !held[slot] && (slot - start + MAX_CONCURRENT) % MAX_CONCURRENT <= (k - start + MAX_CONCURRENT) % MAX_CONCURRENT)
    && (held[slot] ==> slot == start)
  }

  lemma FindSlotNearest(held: Slots, start: nat)
    requires start < MAX_CONCURRENT
    ensures NearestFree(held, start, FindSlot(held, start, 0))
  {
    hide FindSlot;
    FindSlotNext(held, start, 0);
    var slot := FindSlot(held, start, 0);
    forall k | 0 <= k < MAX_CONCURRENT && !held[k]
      ensures !held[slot] && (slot - start + MAX_CONCURRENT) % MAX_CONCURRENT <= (k - start + MAX_CONCURRENT) % MAX_CONCURRENT
    {
      FindSlotFrom(held, start, 0, k);
    }
    if forall k | 0 <= k < MAX_CONCURRENT :: held[k] {
      FindSlotNone(held, start, 0);
    }
  }

  lemma {:induction false} FindSlotNone(held: Slots, start: nat, i: nat)
    requires start < MAX_CONCURRENT && i <= MAX_CONCURRENT && forall k | 0 <= k < MAX_CONCURRENT :: held[k]
    ensures FindSlot(held, start, i) == start
    decreases MAX_CONCURRENT - i
  {
    if i < MAX_CONCURRENT {
      FindSlotNone(held, start, i + 1);
    }
  }

  lemma FindSlotNext(held: Slots, start: nat, i: nat)
    requires start < MAX_CONCURRENT && i <= MAX_CONCURRENT
    ensures FindSlot(held, start, i) ==
              if i == MAX_CONCURRENT then start
              else if !held[(start + i) % MAX_CONCURRENT] then (start + i) % MAX_CONCURRENT
              else FindSlot(held, start, i + 1)
  {
  }

  lemma {:induction false} FindSlotFrom(held: Slots, start: nat, i: nat, k: nat)
    requires start < MAX_CONCURRENT && k < MAX_CONCURRENT && !held[k]
    requires i <= (k - start + MAX_CONCURRENT) % MAX_CONCURRENT
    ensures var slot := FindSlot(held, start, i);
            !held[slot] && (slot - start + MAX_CONCURRENT) % MAX_CONCURRENT <= (k - start + MAX_CONCURRENT) % MAX_CONCURRENT
    decreases MAX_CONCURRENT - i
  {
    var there := (k - start + MAX_CONCURRENT) % MAX_CONCURRENT;
    assert (start + there) % MAX_CONCURRENT == k;
    assert ((start + i) % MAX_CONCURRENT - start + MAX_CONCURRENT) % MAX_CONCURRENT == i;
    if i < there && held[(start + i) % MAX_CONCURRENT] {
      FindSlotFrom(held, start, i + 1, k);
    }
  }

  /** The slot a worker starts its scan from: the dispatcher's hint, else a new one, else 0. */
  function StartSlot(hint: int, again: int): (r: nat)
    requires hint < MAX_CONCURRENT && again < MAX_CONCURRENT
    ensures r < MAX_CONCURRENT
  {
    if hint >= 0 then hint else if again >= 0 then again else 0
  }

  function AgeFlags(jobs: map<JobInfo, JobRec>, q: seq<JobInfo>): (r: seq<bool>)
    ensures |r| == |q|
  {
    seq(|q|, i requires 0 <= i < |q| => q[i] in jobs && jobs[q[i]].aging >= AGING_THRESHOLD)
  }

  /** What one sweep does to the records of the jobs it meets in a level. */
  function TickAll(jobs: map<JobInfo, JobRec>, q: seq<JobInfo>, sweep: nat): (r: map<JobInfo, JobRec>)
    ensures r.Keys == jobs.Keys
  {
    map x | x in jobs :: if x in q then Ticked(jobs[x], sweep) else jobs[x]
  }

  function Ticked(r: JobRec, sweep: nat): JobRec {
    r.(wait := r.wait + 1, aging := r.aging + 1, ticked := sweep)
  }

  function NewJob(sweeps: nat): JobRec {
    JobRec(Waiting, 0, 0, 0, 0, 0, 0, 0, 0, 0, 0, sweeps, sweeps, false)
  }

  function Fresh(r: JobRec): JobRec {
    r.(level := 0, slice := 0, aging := 0, status := Ready)
  }

  function Requeued(r: JobRec): JobRec {
    r.(level := LevelAfter(r.level, QuantumExpired(r.level, r.slice)), slice := 0, aging := 0, status := Ready)
  }

  function PromotedRec(r: JobRec, lvl: nat): JobRec {
    r.(level := lvl - 1, slice := 0, aging := 0, disturbed := true)
  }

  function TickedOnce(r: JobRec): JobRec {
    r.(elapsed := r.elapsed + 1, slice := r.slice + 1, runTicks := r.runTicks + 1,
       late := if r.wins > 0 then r.late + 1 else r.late)
  }

  function RunStarted(r: JobRec): JobRec {
    r.(runs := r.runs + 1, wins := 0, late := 0, runTicks := 0)
  }

  /** The dispatcher holds active_mutex_ for the whole preemption scan. */
  predicate Locked(d: Dispatcher) {
    d.Scan? || d.Probe? || d.ProbeTop? || d.Cas? || d.CountWin?
  }

  function HandOf(d: Dispatcher): multiset<JobInfo> {
    if d.Hand? then multiset{d.job} else multiset{}
  }

  function BufferOf(a: Aging): seq<JobInfo> {
    if a.Promote? then a.buf else []
  }

  // ---------------------------------------------------------------- steps

  datatype Step =
    | Register(x: JobInfo)
    | Count(x: JobInfo)
    | PushNew(x: JobInfo)
    | Stop
    | Dispatch(sweep: bool, hint: int)
    | Age
    | Work(i: nat, hint: int)

  predicate Enabled(s: State, step: Step) {
    match step
    case Register(x) => x !in s.jobs && x.cpu >= 0 && x.memory >= 0
    case Count(x) => x in s.registered
    case PushNew(x) => x in s.counted && x in s.jobs
    case Stop => s.running
    case Dispatch(_, hint) => !s.dispatcher.Stopped? && -1 <= hint < MAX_CONCURRENT && DispatcherReady(s)
    case Age => !s.aging.AgingStopped? && AgingReady(s)
    case Work(i, hint) => i < |s.workers| && WorkerReady(s, s.workers[i]) && -1 <= hint < MAX_CONCURRENT
  }

  /** The dispatcher never waits; the condition only says that its references point to jobs. */
  predicate DispatcherReady(s: State) {
    match s.dispatcher
    case Sweep(lvl) => lvl < MLFQ_LEVELS
    case Scan(slot) => slot < MAX_CONCURRENT ==> s.active[slot].Held? ==> s.active[slot].job in s.jobs
    case Probe(_, job, level, lvl) => job in s.jobs && lvl <= level < MLFQ_LEVELS
    case ProbeTop(_, job, level) => job in s.jobs && 0 <= level < MLFQ_LEVELS
    case Cas(_, job) => job in s.jobs
    case CountWin(_, job) => job in s.jobs
    case PopFrom(lvl) => lvl < MLFQ_LEVELS
    case _ => true
  }

  predicate AgingReady(s: State) {
    match s.aging
    case DrainFrom(lvl) => 1 <= lvl < MLFQ_LEVELS
    case Promote(lvl, buf) => 1 <= lvl < MLFQ_LEVELS && (buf != [] ==> buf[0] in s.jobs)
    case _ => true
  }

  /** A worker waits only for a permit and for active_mutex_. */
  predicate WorkerReady(s: State, w: Worker) {
    && w.pc != Exited
    && w.job in s.jobs
    && (w.pc == Spawned ==> s.permits > 0)
    && (w.pc == Granted || w.pc == Clearing ==> !Locked(s.dispatcher))
    && (w.pc == Granted ==> w.slot < MAX_CONCURRENT)
    && (w.pc == Clearing ==> 0 <= w.slot < MAX_CONCURRENT)
    && (w.pc == Deciding ==> 0 <= s.jobs[w.job].level < MLFQ_LEVELS)
  }

  function Apply(s: State, step: Step): State
    requires Enabled(s, step)
  {
    match step
    case Register(x) => DoRegister(s, x)
    case Count(x) => s.(registered := s.registered - {x}, counted := s.counted + {x},
                        totalSubmitted := s.totalSubmitted + 1)
    case PushNew(x) => s.(counted := s.counted - {x}, jobs := s.jobs[x := Fresh(s.jobs[x])],
                          queues := s.queues[0 := Insert(InfoKey, s.queues[0], x)])
    case Stop => s.(running := false)
    case Dispatch(sweep, hint) => DoDispatch(s, sweep, hint)
    case Age => DoAge(s)
    case Work(i, hint) => DoWork(s, i, hint)
  }

  function DoRegister(s: State, x: JobInfo): State {
    s.(jobs := s.jobs[x := NewJob(s.sweeps)], registered := s.registered + {x},
       tracked := if |s.tracked| < MAX_JOBS then s.tracked + [x] else s.tracked)
  }

  // ---------------------------------------------------------------- the dispatcher

  function DoDispatch(s: State, sweep: bool, hint: int): State
    requires DispatcherReady(s)
  {
    match s.dispatcher
    case Top => s.(dispatcher := if !s.running then Stopped else if sweep then Sweep(0) else Scan(0))
    case Sweep(lvl) => SweepLevel(s, lvl)
    case Scan(slot) => ScanSlot(s, slot)
    case Probe(slot, x, level, lvl) => ProbeLevel(s, slot, x, level, lvl)
    case ProbeTop(slot, x, level) => ProbeHead(s, slot, x, level)
    case Cas(slot, x) => TryPreempt(s, slot, x)
    case CountWin(slot, x) => CountPreemption(s, slot, x)
    case PopFrom(lvl) => PopLevel(s, lvl)
    case Hand(x) => Spawn(s, x, hint)
    case Stopped => s
  }

  function SweepLevel(s: State, lvl: nat): State
    requires lvl < MLFQ_LEVELS
  {
    var n := if lvl == 0 then s.sweeps + 1 else s.sweeps;
    s.(sweeps := n, jobs := TickAll(s.jobs, s.queues[lvl], n),
       dispatcher := if lvl + 1 < MLFQ_LEVELS then Sweep(lvl + 1) else Scan(0))
  }

  function ScanSlot(s: State, slot: nat): State
    requires slot < MAX_CONCURRENT ==> s.active[slot].Held? ==> s.active[slot].job in s.jobs
  {
    if slot >= MAX_CONCURRENT then s.(dispatcher := PopFrom(0))
    else if s.active[slot].Held? && s.jobs[s.active[slot].job].status == Running then
      var x := s.active[slot].job;
      s.(dispatcher := Probe(slot, x, s.jobs[x].level, 0))
    else s.(dispatcher := Scan(slot + 1))
  }

  function ProbeLevel(s: State, slot: nat, x: JobInfo, level: int, lvl: nat): State
    requires lvl <= level < MLFQ_LEVELS
  {
    if lvl < level then
      if s.queues[lvl] != [] then
        s.(dispatcher := Cas(slot, x),
           hints := s.hints + {Hint(level, x.priority.Value(), s.queues[lvl][0], lvl)})
      else s.(dispatcher := Probe(slot, x, level, lvl + 1))
    else s.(dispatcher := if s.queues[level] != [] then ProbeTop(slot, x, level) else Scan(slot + 1))
  }

  function ProbeHead(s: State, slot: nat, x: JobInfo, level: int): State
    requires 0 <= level < MLFQ_LEVELS
  {
    var q := s.queues[level];
    var top := if q == [] then -1 else q[0].priority.Value();
    if top > x.priority.Value() then
      s.(dispatcher := Cas(slot, x), hints := s.hints + {Hint(level, x.priority.Value(), q[0], level)})
    else s.(dispatcher := Scan(slot + 1))
  }

  function TryPreempt(s: State, slot: nat, x: JobInfo): State
    requires x in s.jobs
  {
    var r := s.jobs[x];
    if r.status == Running then
      s.(dispatcher := CountWin(slot, x), jobs := s.jobs[x := r.(status := Preempted, wins := r.wins + 1, disturbed := true)])
    else s.(dispatcher := Scan(slot + 1))
  }

  function CountPreemption(s: State, slot: nat, x: JobInfo): State
    requires x in s.jobs
  {
    s.(dispatcher := Scan(slot + 1),
       jobs := s.jobs[x := s.jobs[x].(preemptions := s.jobs[x].preemptions + 1)])
  }

  function PopLevel(s: State, lvl: nat): State
    requires lvl < MLFQ_LEVELS
  {
    if s.queues[lvl] != [] then
      s.(dispatcher := Hand(s.queues[lvl][0]), queues := s.queues[lvl := s.queues[lvl][1..]], hints := {})
    else if lvl + 1 < MLFQ_LEVELS then s.(dispatcher := PopFrom(lvl + 1))
    else s.(dispatcher := Top, hints := {})
  }

  function Spawn(s: State, x: JobInfo, hint: int): State {
    s.(dispatcher := Top, workers := s.workers + [Worker(x, Spawned, hint, false)])
  }

  // ---------------------------------------------------------------- the aging thread

  function DoAge(s: State): State
    requires AgingReady(s)
  {
    match s.aging
    case Idle => s.(aging := if s.running then DrainFrom(1) else AgingStopped)
    case DrainFrom(lvl) => DrainLevel(s, lvl)
    case Promote(lvl, buf) =>
      if buf == [] then s.(aging := if lvl + 1 < MLFQ_LEVELS then DrainFrom(lvl + 1) else Idle)
      else PromoteHead(s, lvl, buf)
    case AgingStopped => s
  }

  function DrainLevel(s: State, lvl: nat): State
    requires lvl < MLFQ_LEVELS
  {
    var q := s.queues[lvl];
    var flags := AgeFlags(s.jobs, q);
    s.(aging := Promote(lvl, Taken(q, flags, AGED_BUF)), queues := s.queues[lvl := Kept(q, flags, AGED_BUF)],
       hints := StillQueued(s.hints, lvl, Kept(q, flags, AGED_BUF)))
  }

  function StillQueued(hints: set<Hint>, lvl: nat, kept: seq<JobInfo>): set<Hint> {
    set h | h in hints && (h.at != lvl || h.rival in kept)
  }

  function PromoteHead(s: State, lvl: nat, buf: seq<JobInfo>): State
    requires 1 <= lvl < MLFQ_LEVELS && buf != [] && buf[0] in s.jobs
  {
    var x := buf[0];
    s.(aging := Promote(lvl, buf[1..]), jobs := s.jobs[x := PromotedRec(s.jobs[x], lvl)],
       queues := s.queues[lvl - 1 := Insert(InfoKey, s.queues[lvl - 1], x)])
  }

  // ---------------------------------------------------------------- workers

  function DoWork(s: State, i: nat, hint: int): State
    requires Enabled(s, Work(i, hint))
  {
    if HoldsSlotOrClaims(s.workers[i].pc) then RunStep(s, i, hint) else AroundStep(s, i)
  }

  predicate HoldsSlotOrClaims(pc: Pc) {
    pc == Granted || pc == Claimed || pc == LoopTest || pc == StatusTest || pc == QuantumTest || pc == Ticking || pc == Clearing
  }

  /** From the claim of a slot to the clearing of it. */
  function RunStep(s: State, i: nat, hint: int): State
    requires Enabled(s, Work(i, hint))
  {
    match s.workers[i].pc
    case Granted => ClaimSlot(s, i, hint)
    case Claimed => MarkRunning(s, i)
    case LoopTest => TestLoop(s, i)
    case StatusTest => TestStatus(s, i)
    case QuantumTest => TestQuantum(s, i)
    case Ticking => ExecuteTick(s, i)
    case Clearing => ClearSlot(s, i)
    case _ => s
  }

  /** Before the grant, and after the slot is cleared. */
  function AroundStep(s: State, i: nat): State
    requires i < |s.workers| && WorkerReady(s, s.workers[i])
  {
    match s.workers[i].pc
    case Spawned => SetPc(s.(permits := s.permits - 1), i, Waited)
    case Waited => CheckBudget(s, i)
    case Denied => SetPc(s.(permits := s.permits + 1), i, Failing)
    case Failing => MarkFailed(s, i)
    case FailPending => SetPc(s.(totalFailed := s.totalFailed + 1), i, Exited)
    case Releasing => ReleaseBudget(s, i)
    case Posting => SetPc(s.(permits := s.permits + 1), i, Deciding)
    case Deciding => Decide(s, i)
    case CompletePending => SetPc(s.(totalCompleted := s.totalCompleted + 1), i, Exited)
    case _ => s
  }

  function SetWorker(s: State, i: nat, w: Worker): State
    requires i < |s.workers|
  {
    s.(workers := s.workers[i := w])
  }

  function SetPc(s: State, i: nat, pc: Pc): State
    requires i < |s.workers|
  {
    SetWorker(s, i, s.workers[i].(pc := pc))
  }

  function SetRec(s: State, i: nat, r: JobRec): State
    requires i < |s.workers|
  {
    s.(jobs := s.jobs[s.workers[i].job := r])
  }

  predicate HasWorker(s: State, i: nat) {
    i < |s.workers| && s.workers[i].job in s.jobs
  }

  /** The locked part of acquire. */
  function CheckBudget(s: State, i: nat): State
    requires i < |s.workers|
  {
    var x := s.workers[i].job;
    if Fits(s.usedCpu, s.usedMemory, x.cpu, x.memory) then
      SetPc(s.(usedCpu := s.usedCpu + x.cpu, usedMemory := s.usedMemory + x.memory,
               activeCount := s.activeCount + 1), i, Granted)
    else SetPc(s, i, Denied)
  }

  function MarkFailed(s: State, i: nat): State
    requires HasWorker(s, i)
  {
    var x := s.workers[i].job;
    SetPc(SetRec(s, i, s.jobs[x].(status := Failed)).(failed := s.failed + {x}), i, FailPending)
  }

  function ClaimSlot(s: State, i: nat, hint: int): State
    requires HasWorker(s, i) && s.workers[i].slot < MAX_CONCURRENT && hint < MAX_CONCURRENT
  {
    var w := s.workers[i];
    var slot := FindSlot(Occupancy(s.active), StartSlot(w.slot, hint), 0);
    SetWorker(SetRec(s, i, RunStarted(s.jobs[w.job])).(active := s.active[slot := Held(w.job, i)]), i,
              w.(pc := Claimed, slot := slot))
  }

  function MarkRunning(s: State, i: nat): State
    requires HasWorker(s, i)
  {
    SetPc(SetRec(s, i, s.jobs[s.workers[i].job].(status := Running)), i, LoopTest)
  }

  function TestLoop(s: State, i: nat): State
    requires HasWorker(s, i)
  {
    var x := s.workers[i].job;
    SetPc(s, i, if s.jobs[x].elapsed < x.burst && s.running then StatusTest else Clearing)
  }

  function TestStatus(s: State, i: nat): State
    requires HasWorker(s, i)
  {
    if s.jobs[s.workers[i].job].status == Preempted then
      SetWorker(s, i, s.workers[i].(pc := Clearing, preempted := true))
    else SetPc(s, i, QuantumTest)
  }

  function TestQuantum(s: State, i: nat): State
    requires HasWorker(s, i)
  {
    var r := s.jobs[s.workers[i].job];
    if QuantumExpired(r.level, r.slice) then
      SetWorker(SetRec(s, i, r.(status := Preempted)), i, s.workers[i].(pc := Clearing, preempted := true))
    else SetPc(s, i, Ticking)
  }

  function ExecuteTick(s: State, i: nat): State
    requires HasWorker(s, i)
  {
    SetPc(SetRec(s, i, TickedOnce(s.jobs[s.workers[i].job])), i, LoopTest)
  }

  function ClearSlot(s: State, i: nat): State
    requires i < |s.workers| && 0 <= s.workers[i].slot < MAX_CONCURRENT
  {
    SetPc(s.(active := s.active[s.workers[i].slot := Empty]), i, Releasing)
  }

  /** The locked part of release. */
  function ReleaseBudget(s: State, i: nat): State
    requires i < |s.workers|
  {
    var x := s.workers[i].job;
    SetPc(s.(usedCpu := Released(s.usedCpu, x.cpu), usedMemory := Released(s.usedMemory, x.memory),
             activeCount := Released(s.activeCount, 1)), i, Posting)
  }

  function Decide(s: State, i: nat): State
    requires HasWorker(s, i) && 0 <= s.jobs[s.workers[i].job].level < MLFQ_LEVELS
  {
    var x := s.workers[i].job;
    if s.jobs[x].elapsed >= x.burst then Complete(s, i)
    else if s.workers[i].preempted then Requeue(s, i)
    else SetPc(s.(abandoned := s.abandoned + {x}), i, Exited)
  }

  function Complete(s: State, i: nat): State
    requires HasWorker(s, i)
  {
    var x := s.workers[i].job;
    SetPc(SetRec(s, i, s.jobs[x].(status := Completed)).(completed := s.completed + {x}), i, CompletePending)
  }

  function Requeue(s: State, i: nat): State
    requires HasWorker(s, i) && 0 <= s.jobs[s.workers[i].job].level < MLFQ_LEVELS
  {
    var x := s.workers[i].job;
    var r := Requeued(s.jobs[x]);
    SetPc(SetRec(s, i, r).(queues := s.queues[r.level := Insert(InfoKey, s.queues[r.level], x)]), i, Exited)
  }

  // ---------------------------------------------------------------- what steps leave alone

  /** A worker step changes one worker, at most its own job's record, and nothing of the other threads. */
  ghost predicate WorkFrame(s: State, s': State, i: nat) {
    && HasWorker(s, i) && |s'.workers| == |s.workers| && s'.workers == s.workers[i := s'.workers[i]] && s'.workers[i].job == s.workers[i].job
    && s'.jobs.Keys == s.jobs.Keys && (forall y | y in s.jobs && y != s.workers[i].job :: s'.jobs[y] == s.jobs[y])
    && s'.dispatcher == s.dispatcher && s'.aging == s.aging
    && s'.registered == s.registered && s'.counted == s.counted
    && s'.running == s.running && s'.sweeps == s.sweeps && s'.hints == s.hints
    && s'.tracked == s.tracked && s'.totalSubmitted == s.totalSubmitted
  }

  /** Steps that end no ownership leave the queues and the terminal places alone. */
  ghost predicate SamePlaces(s: State, s': State) {
    s'.queues == s.queues && s'.completed == s.completed && s'.failed == s.failed && s'.abandoned == s.abandoned
  }

  lemma WorkFrames(s: State, i: nat, hint: int)
    requires Enabled(s, Work(i, hint))
    ensures WorkFrame(s, DoWork(s, i, hint), i)
    ensures s.workers[i].pc != Failing && s.workers[i].pc != Deciding ==> SamePlaces(s, DoWork(s, i, hint))
  {
    hide DoWork, WorkFrame, SamePlaces;
    var pc := s.workers[i].pc;
    if HoldsSlotOrClaims(pc) {
      if Tests(pc) {
        TestFrames(s, i, hint);
      } else {
        RunFrames(s, i, hint);
      }
    } else if pc == Failing || pc == Deciding {
      EndFrames(s, i, hint);
    } else if Acquires(pc) {
      AcquireFrames(s, i, hint);
    } else if pc == Releasing || pc == Posting {
      ReleaseFrames(s, i, hint);
    } else {
      CountFrames(s, i, hint);
    }
  }

  predicate Tests(pc: Pc) {
    pc == LoopTest || pc == StatusTest || pc == QuantumTest
  }

  lemma TestFrames(s: State, i: nat, hint: int)
    requires Enabled(s, Work(i, hint)) && Tests(s.workers[i].pc)
    ensures WorkFrame(s, DoWork(s, i, hint), i) && SamePlaces(s, DoWork(s, i, hint))
  {
    hide AroundStep, ClaimSlot, ClearSlot, MarkRunning, ExecuteTick, QuantumExpired;
  }

  lemma RunFrames(s: State, i: nat, hint: int)
    requires Enabled(s, Work(i, hint)) && HoldsSlotOrClaims(s.workers[i].pc) && !Tests(s.workers[i].pc)
    ensures WorkFrame(s, DoWork(s, i, hint), i) && SamePlaces(s, DoWork(s, i, hint))
  {
    hide AroundStep, TestLoop, TestStatus, TestQuantum, FindSlot, StartSlot, RunStarted, TickedOnce;
  }

  lemma EndFrames(s: State, i: nat, hint: int)
    requires Enabled(s, Work(i, hint)) && (s.workers[i].pc == Failing || s.workers[i].pc == Deciding)
    ensures WorkFrame(s, DoWork(s, i, hint), i)
  {
    hide RunStep, CheckBudget, ReleaseBudget, Insert, Requeued;
  }

  predicate Acquires(pc: Pc) {
    pc == Spawned || pc == Waited || pc == Denied
  }

  lemma AcquireFrames(s: State, i: nat, hint: int)
    requires Enabled(s, Work(i, hint)) && Acquires(s.workers[i].pc)
    ensures WorkFrame(s, DoWork(s, i, hint), i) && SamePlaces(s, DoWork(s, i, hint))
  {
    hide RunStep, MarkFailed, Decide, ReleaseBudget, Fits;
  }

  lemma ReleaseFrames(s: State, i: nat, hint: int)
    requires Enabled(s, Work(i, hint)) && (s.workers[i].pc == Releasing || s.workers[i].pc == Posting)
    ensures WorkFrame(s, DoWork(s, i, hint), i) && SamePlaces(s, DoWork(s, i, hint))
  {
    hide RunStep, MarkFailed, Decide, CheckBudget, Released;
  }

  lemma CountFrames(s: State, i: nat, hint: int)
    requires Enabled(s, Work(i, hint)) && (s.workers[i].pc == FailPending || s.workers[i].pc == CompletePending)
    ensures WorkFrame(s, DoWork(s, i, hint), i) && SamePlaces(s, DoWork(s, i, hint))
  {
    hide RunStep, MarkFailed, Decide, CheckBudget, ReleaseBudget;
  }

  lemma EndIs(s: State, i: nat, hint: int)
    requires Enabled(s, Work(i, hint))
    ensures s.workers[i].pc == Failing ==> DoWork(s, i, hint) == MarkFailed(s, i)
    ensures s.workers[i].pc == Deciding ==> DoWork(s, i, hint) == Decide(s, i)
  {
    hide MarkFailed, Decide, RunStep, CheckBudget, ReleaseBudget;
  }

  lemma OnlyDecideQueues(s: State, i: nat, hint: int)
    requires Enabled(s, Work(i, hint)) && s.workers[i].pc != Deciding
    ensures DoWork(s, i, hint).queues == s.queues
  {
  }

  /** What the dispatcher leaves alone, and what it leaves alone except when it pops or spawns. */
  ghost predicate DispatchFrame(s: State, s': State) {
    && s'.running == s.running && s'.permits == s.permits && s'.usedCpu == s.usedCpu
    && s'.usedMemory == s.usedMemory && s'.activeCount == s.activeCount && s'.active == s.active
    && s'.jobs.Keys == s.jobs.Keys && s'.tracked == s.tracked
    && s'.registered == s.registered && s'.counted == s.counted && s'.aging == s.aging
    && s'.totalSubmitted == s.totalSubmitted && s'.totalCompleted == s.totalCompleted && s'.totalFailed == s.totalFailed
    && s'.completed == s.completed && s'.failed == s.failed && s'.abandoned == s.abandoned
    && (!s.dispatcher.PopFrom? ==> s'.queues == s.queues)
    && (!s.dispatcher.Hand? ==> s'.workers == s.workers)
    && (!s.dispatcher.PopFrom? && !s.dispatcher.Hand? ==> !s'.dispatcher.Hand?)
  }

  lemma DispatchFrames(s: State, sweep: bool, hint: int)
    requires DispatcherReady(s)
    ensures DispatchFrame(s, DoDispatch(s, sweep, hint))
  {
    if s.dispatcher.Probe? || s.dispatcher.ProbeTop? || s.dispatcher.Scan? || s.dispatcher.Cas? {
      ScanFrames(s, sweep, hint);
    } else {
      hide ProbeLevel, ProbeHead, ScanSlot, TryPreempt, TickAll;
    }
  }

  lemma ScanFrames(s: State, sweep: bool, hint: int)
    requires DispatcherReady(s)
    requires s.dispatcher.Probe? || s.dispatcher.ProbeTop? || s.dispatcher.Scan? || s.dispatcher.Cas?
    ensures DispatchFrame(s, DoDispatch(s, sweep, hint))
  {
    hide PopLevel, Spawn, SweepLevel, CountPreemption;
  }

  /** What the aging thread leaves alone. */
  ghost predicate AgeFrame(s: State, s': State) {
    && s'.running == s.running && s'.permits == s.permits && s'.usedCpu == s.usedCpu
    && s'.usedMemory == s.usedMemory && s'.activeCount == s.activeCount && s'.active == s.active
    && s'.jobs.Keys == s.jobs.Keys && s'.tracked == s.tracked
    && s'.registered == s.registered && s'.counted == s.counted && s'.dispatcher == s.dispatcher
    && s'.workers == s.workers && s'.sweeps == s.sweeps
    && s'.totalSubmitted == s.totalSubmitted && s'.totalCompleted == s.totalCompleted && s'.totalFailed == s.totalFailed
    && s'.completed == s.completed && s'.failed == s.failed && s'.abandoned == s.abandoned
    && (forall y | y in s.jobs && (BufferOf(s.aging) == [] || y != BufferOf(s.aging)[0]) :: s'.jobs[y] == s.jobs[y])
  }

  lemma AgeFrames(s: State)
    requires AgingReady(s)
    ensures AgeFrame(s, DoAge(s))
  {
  }

  /** A run of the system: states and the steps between them. */
  ghost predicate Execution(b: seq<State>, steps: seq<Step>) {
    && |b| == |steps| + 1 && b[0] == Init()
    && forall k | 0 <= k < |steps| :: Enabled(b[k], steps[k]) && b[k + 1] == Apply(b[k], steps[k])
  }
}
