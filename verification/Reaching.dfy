/**
 How states are reached: the steps by which one more job comes from its submitter to a worker that
 asks for the budgets, while nothing else moves.
 */
module Reaching {
  import opened Jobs
  import opened StableQueue
  import opened Protocol

  ghost predicate Reachable(s: State) {
    exists b: seq<State>, steps: seq<Step> :: Execution(b, steps) && b[|steps|] == s
  }

  lemma Next(s: State, step: Step, s': State)
    requires Reachable(s) && Enabled(s, step) && s' == Apply(s, step)
    ensures Reachable(s')
  {
    hide Apply, Enabled, Init;
    var b: seq<State>, steps: seq<Step> :| Execution(b, steps) && b[|steps|] == s;
    assert Execution(b + [s'], steps + [step]);
  }

  /** The scheduler is up, and no job is on its way to a worker. */
  ghost predicate NoneOnTheWay(s: State) {
    && Reachable(s) && s.running && s.dispatcher == Top && s.queues == [[], [], []]
    && s.registered == {} && s.counted == {} && s.hints == {}
  }

  /** Moreover, no slot is claimed. */
  ghost predicate Calm(s: State) {
    NoneOnTheWay(s) && s.active == [Empty, Empty, Empty, Empty]
  }

  lemma CalmInit()
    ensures Calm(Init())
  {
    assert Execution([Init()], []);
  }

  function Submitted(s: State, x: JobInfo): State {
    s.(jobs := s.jobs[x := Fresh(NewJob(s.sweeps))], queues := [[x], [], []],
       tracked := if |s.tracked| < MAX_JOBS then s.tracked + [x] else s.tracked,
       totalSubmitted := s.totalSubmitted + 1)
  }

  lemma SubmitOne(s: State, x: JobInfo)
    requires NoneOnTheWay(s) && x !in s.jobs && x.cpu >= 0 && x.memory >= 0
    ensures Reachable(Submitted(s, x))
  {
    hide Reachable;
    var s1 := DoRegister(s, x);
    var s2 := Apply(s1, Count(x));
    Next(s, Register(x), s1);
    Next(s1, Count(x), s2);
    assert Insert(InfoKey, [], x) == [x];
    assert s2.registered == {} && s2.counted - {x} == {};
    assert s1.jobs[x := Fresh(s1.jobs[x])] == s.jobs[x := Fresh(NewJob(s.sweeps))];
    Next(s2, PushNew(x), Submitted(s, x));
  }

  /** The scan of an empty table. */
  lemma IdleScan(s: State, slot: nat)
    requires Reachable(s) && slot <= MAX_CONCURRENT && s.dispatcher == Scan(slot)
    requires s.active == [Empty, Empty, Empty, Empty]
    ensures Reachable(s.(dispatcher := PopFrom(0)))
    decreases MAX_CONCURRENT - slot
  {
    hide Reachable;
    if slot == MAX_CONCURRENT {
      Next(s, Dispatch(false, -1), s.(dispatcher := PopFrom(0)));
    } else {
      var t := s.(dispatcher := Scan(slot + 1));
      Next(s, Dispatch(false, -1), t);
      IdleScan(t, slot + 1);
    }
  }

  function WithWorker(s: State, x: JobInfo, pc: Pc): State {
    Submitted(s, x).(queues := [[], [], []], workers := s.workers + [Worker(x, pc, -1, false)])
  }

  lemma SpawnOne(s: State, x: JobInfo)
    requires Calm(s) && x !in s.jobs && x.cpu >= 0 && x.memory >= 0
    ensures Reachable(WithWorker(s, x, Spawned))
  {
    hide Reachable;
    var t := Submitted(s, x);
    SubmitOne(s, x);
    Next(t, Dispatch(false, -1), t.(dispatcher := Scan(0)));
    IdleScan(t.(dispatcher := Scan(0)), 0);
    var u := t.(dispatcher := Hand(x), queues := [[], [], []]);
    assert [x][1..] == [] && t.queues[0 := []] == [[], [], []];
    Next(t.(dispatcher := PopFrom(0)), Dispatch(false, -1), u);
    Next(u, Dispatch(false, -1), WithWorker(s, x, Spawned));
  }

  /** The new worker has its permit and is about to check the budgets. */
  function Asking(s: State, x: JobInfo): State {
    WithWorker(s, x, Waited).(permits := s.permits - 1)
  }

  lemma Ask(s: State, x: JobInfo)
    requires Calm(s) && x !in s.jobs && x.cpu >= 0 && x.memory >= 0 && s.permits > 0
    ensures Reachable(Asking(s, x))
  {
    hide Reachable;
    SpawnOne(s, x);
    var t, i := WithWorker(s, x, Spawned), |s.workers|;
    assert t.workers[i := t.workers[i].(pc := Waited)] == Asking(s, x).workers;
    Next(t, Work(i, -1), Asking(s, x));
  }

  /** The new worker was granted its budget; it has not claimed a slot. */
  function Admitted(s: State, x: JobInfo): State {
    WithWorker(s, x, Granted).(permits := s.permits - 1, usedCpu := s.usedCpu + x.cpu,
                               usedMemory := s.usedMemory + x.memory, activeCount := s.activeCount + 1)
  }

  lemma Admit(s: State, x: JobInfo)
    requires Calm(s) && x !in s.jobs && x.cpu >= 0 && x.memory >= 0 && s.permits > 0
    requires Fits(s.usedCpu, s.usedMemory, x.cpu, x.memory)
    ensures Calm(Admitted(s, x))
  {
    hide Reachable;
    Ask(s, x);
    var t, i := Asking(s, x), |s.workers|;
    assert t.workers[i := t.workers[i].(pc := Granted)] == Admitted(s, x).workers;
    Next(t, Work(i, -1), Admitted(s, x));
  }

  lemma AdmittedIs(s: State, x: JobInfo)
    ensures var t := Admitted(s, x);
            && t.workers == s.workers + [Worker(x, Granted, -1, false)]
            && t.jobs.Keys == s.jobs.Keys + {x}
            && t.permits == s.permits - 1
            && t.usedCpu == s.usedCpu + x.cpu && t.usedMemory == s.usedMemory + x.memory
  {
  }
}
