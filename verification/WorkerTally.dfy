/**
 Counting over an unbounded list of workers: what each program counter holds, the totals, and the
 laws by which one worker's step or one spawn changes the totals.
 */
module WorkerTally {
  import opened Jobs
  import opened Protocol

  /** Between sem_wait and the sem_post that matches it. */
  predicate HoldsPermit(pc: Pc) {
    pc == Waited || pc == Denied || pc == Posting || HoldsBudget(pc)
  }

  /** Granted and not yet released. */
  predicate HoldsBudget(pc: Pc) {
    pc == Granted || pc == Releasing || HoldsSlot(pc)
  }

  /** In a run of its job: from the claim of a slot to the clearing of it. */
  predicate HoldsSlot(pc: Pc) {
    pc == Claimed || pc == LoopTest || pc == StatusTest || pc == QuantumTest || pc == Ticking || pc == Clearing
  }

  /** The job is in this worker's hands alone. */
  predicate Owns(pc: Pc) {
    pc != FailPending && pc != CompletePending && pc != Exited
  }

  /** A bound on the steps that a worker can still take once the running flag is down. */
  function Rank(pc: Pc): nat {
    match pc
    case Spawned => 15
    case Waited => 14
    case Denied => 3
    case Failing => 2
    case FailPending => 1
    case Granted => 13
    case Claimed => 12
    case StatusTest => 11
    case QuantumTest => 10
    case Ticking => 9
    case LoopTest => 8
    case Clearing => 7
    case Releasing => 6
    case Posting => 5
    case Deciding => 4
    case CompletePending => 1
    case Exited => 0
  }

  datatype Tally = Tally(permits: nat, active: nat, cpu: int, memory: int, slots: nat,
                         completing: nat, failing: nat, rank: nat, live: nat, jobs: multiset<JobInfo>)

  function One(b: bool): nat {
    if b then 1 else 0
  }

  function Weight(w: Worker): Tally {
    Tally(One(HoldsPermit(w.pc)), One(HoldsBudget(w.pc)),
          if HoldsBudget(w.pc) then w.job.cpu else 0, if HoldsBudget(w.pc) then w.job.memory else 0,
          One(HoldsSlot(w.pc)), One(w.pc == CompletePending), One(w.pc == FailPending), Rank(w.pc),
          One(w.pc != Exited), if Owns(w.pc) then multiset{w.job} else multiset{})
  }

  function Plus(a: Tally, b: Tally): Tally {
    Tally(a.permits + b.permits, a.active + b.active, a.cpu + b.cpu, a.memory + b.memory, a.slots + b.slots,
          a.completing + b.completing, a.failing + b.failing, a.rank + b.rank, a.live + b.live, a.jobs + b.jobs)
  }

  function Total(ws: seq<Worker>): Tally {
    if ws == [] then Tally(0, 0, 0, 0, 0, 0, 0, 0, 0, multiset{})
    else Plus(Total(ws[..|ws| - 1]), Weight(ws[|ws| - 1]))
  }

  /** The total of all workers but one. */
  function Others(ws: seq<Worker>, i: nat): Tally
    requires i < |ws|
  {
    Total(ws[..i] + ws[i + 1..])
  }

  lemma {:induction false} TotalWithout(ws: seq<Worker>, i: nat)
    requires i < |ws|
    ensures Total(ws) == Plus(Others(ws, i), Weight(ws[i]))
  {
    hide Weight, Plus;
    var n := |ws| - 1;
    var rest := ws[..i] + ws[i + 1..];
    if i == n {
      assert rest == ws[..n];
    } else {
      TotalWithout(ws[..n], i);
      assert rest[..|rest| - 1] == ws[..n][..i] + ws[..n][i + 1..];
      assert rest[|rest| - 1] == ws[n];
      PlusSwaps(Others(ws[..n], i), Weight(ws[i]), Weight(ws[n]));
    }
  }

  lemma PlusSwaps(a: Tally, b: Tally, c: Tally)
    ensures Plus(Plus(a, b), c) == Plus(Plus(a, c), b)
  {
  }

  /** One worker's step changes the total by that worker's own change. */
  lemma TotalOfStep(ws: seq<Worker>, i: nat, w: Worker)
    requires i < |ws|
    ensures Total(ws) == Plus(Others(ws, i), Weight(ws[i]))
    ensures Total(ws[i := w]) == Plus(Others(ws, i), Weight(w))
  {
    hide Total, Weight, Plus;
    TotalWithout(ws, i);
    TotalWithout(ws[i := w], i);
    assert ws[i := w][..i] + ws[i := w][i + 1..] == ws[..i] + ws[i + 1..];
  }

  predicate NonNegative(ws: seq<Worker>) {
    forall i | 0 <= i < |ws| :: ws[i].job.cpu >= 0 && ws[i].job.memory >= 0
  }

  lemma {:induction false} TotalBounds(ws: seq<Worker>)
    requires NonNegative(ws)
    ensures Total(ws).cpu >= 0 && Total(ws).memory >= 0
    ensures Total(ws).slots <= Total(ws).active <= Total(ws).permits <= Total(ws).live
    ensures Total(ws).rank >= Total(ws).live
  {
    if ws != [] {
      var w := ws[|ws| - 1];
      TotalBounds(ws[..|ws| - 1]);
      WeightBounds(w);
      hide Weight, Rank, HoldsPermit, HoldsBudget, HoldsSlot;
    }
  }

  lemma WeightBounds(w: Worker)
    requires w.job.cpu >= 0 && w.job.memory >= 0
    ensures var t := Weight(w);
            t.cpu >= 0 && t.memory >= 0 && t.slots <= t.active <= t.permits <= t.live <= t.rank
  {
  }

  /** No worker's share exceeds the total. */
  lemma ShareOfTotal(ws: seq<Worker>, i: nat)
    requires i < |ws| && NonNegative(ws)
    ensures Others(ws, i).cpu >= 0 && Others(ws, i).memory >= 0
    ensures Others(ws, i).slots <= Others(ws, i).active <= Others(ws, i).permits
    ensures Total(ws) == Plus(Others(ws, i), Weight(ws[i]))
  {
    hide Total, Weight, Plus;
    TotalWithout(ws, i);
    var rest := ws[..i] + ws[i + 1..];
    forall k | 0 <= k < |rest| ensures rest[k].job.cpu >= 0 && rest[k].job.memory >= 0 {
      assert rest[k] == if k < i then ws[k] else ws[k + 1];
    }
    TotalBounds(rest);
  }

  lemma JobsOfOneMore(t: Tally, w: Worker, x: JobInfo)
    ensures Plus(t, Weight(w)).jobs[x] == t.jobs[x] + One(Owns(w.pc) && w.job == x)
  {
  }

  /** Two workers that own the same job own it twice. */
  lemma TwoOwners(ws: seq<Worker>, i: nat, k: nat)
    requires i < |ws| && k < |ws| && i != k
    requires Owns(ws[i].pc) && Owns(ws[k].pc) && ws[i].job == ws[k].job
    ensures Total(ws).jobs[ws[i].job] >= 2
  {
    hide Total, Plus, Weight;
    var rest := ws[..i] + ws[i + 1..];
    var k' := if k < i then k else k - 1;
    assert rest[k'] == ws[k];
    TotalWithout(ws, i);
    TotalWithout(rest, k');
    JobsOfOneMore(Total(rest), ws[i], ws[i].job);
    JobsOfOneMore(Total(rest[..k'] + rest[k' + 1..]), ws[k], ws[i].job);
  }
}
