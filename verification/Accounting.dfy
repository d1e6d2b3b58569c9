/**
 Permits, budgets and slots: the shared counters always equal what the workers hold.
 */
module Accounting {
  import opened Jobs
  import opened StableQueue
  import opened Protocol
  import opened WorkerTally

  function Occupied(t: Table): nat {
    One(t[0].Held?) + One(t[1].Held?) + One(t[2].Held?) + One(t[3].Held?)
  }

  /** Each worker in a run is in the table at its slot, and each entry belongs to such a worker. */
  ghost predicate Linked(ws: seq<Worker>, t: Table) {
    && (forall i | 0 <= i < |ws| :: -1 <= ws[i].slot < MAX_CONCURRENT)
    && (forall i | 0 <= i < |ws| && HoldsSlot(ws[i].pc) :: ws[i].slot >= 0 && t[ws[i].slot] == Held(ws[i].job, i))
    && (forall k | 0 <= k < MAX_CONCURRENT && t[k].Held? ::
          t[k].worker < |ws| && HoldsSlot(ws[t[k].worker].pc) && ws[t[k].worker].slot == k && ws[t[k].worker].job == t[k].job)
  }

  ghost predicate Balanced(s: State) {
    var t := Total(s.workers);
    && 0 <= s.permits && s.permits + t.permits == MAX_CONCURRENT
    && s.usedCpu == t.cpu <= TOTAL_CPU
    && s.usedMemory == t.memory <= TOTAL_MEMORY
    && s.activeCount == t.active
    && Occupied(s.active) == t.slots
  }

  ghost predicate Accounts(s: State) {
    Balanced(s) && Linked(s.workers, s.active)
  }

  lemma InitAccounts()
    ensures Accounts(Init())
  {
    var s := Init();
    assert Total(s.workers) == Tally(0, 0, 0, 0, 0, 0, 0, 0, 0, multiset{});
    hide Total;
  }

  // ---------------------------------------------------------------- slots

  lemma SetEntry(t: Table, k: nat, e: Entry)
    requires k < MAX_CONCURRENT
    ensures Occupied(t[k := e]) + One(t[k].Held?) == Occupied(t) + One(e.Held?)
  {
  }

  lemma EmptyEntry(t: Table) returns (k: nat)
    requires Occupied(t) < MAX_CONCURRENT
    ensures k < MAX_CONCURRENT && t[k].Empty?
  {
    k := if t[0].Empty? then 0 else if t[1].Empty? then 1 else if t[2].Empty? then 2 else 3;
  }

  /** A worker that was granted its budget finds a free entry: at most three other permits are out. */
  lemma ClaimFindsEmpty(s: State, i: nat, hint: int)
    requires Accounts(s) && NonNegative(s.workers)
    requires i < |s.workers| && s.workers[i].pc == Granted && -1 <= hint < MAX_CONCURRENT
    ensures s.active[FindSlot(Occupancy(s.active), StartSlot(s.workers[i].slot, hint), 0)].Empty?
  {
    hide Total, FindSlot, StartSlot;
    ShareOfTotal(s.workers, i);
    hide Others, Occupied;
    var k := EmptyEntry(s.active);
    FindSlotFinds(Occupancy(s.active), StartSlot(s.workers[i].slot, hint), k);
  }

  lemma ClaimAccounts(s: State, i: nat, hint: int)
    requires HasWorker(s, i) && s.workers[i].pc == Granted && -1 <= hint < MAX_CONCURRENT
    requires s.workers[i].slot < MAX_CONCURRENT && Accounts(s) && NonNegative(s.workers)
    ensures Accounts(ClaimSlot(s, i, hint))
  {
    hide Total, Occupied, FindSlot, StartSlot, RunStarted;
    var w := s.workers[i];
    var slot := FindSlot(Occupancy(s.active), StartSlot(w.slot, hint), 0);
    ClaimFindsEmpty(s, i, hint);
    TotalOfStep(s.workers, i, w.(pc := Claimed, slot := slot));
    SetEntry(s.active, slot, Held(w.job, i));
  }

  lemma ClearAccounts(s: State, i: nat)
    requires Accounts(s) && HasWorker(s, i) && s.workers[i].pc == Clearing
    ensures s.workers[i].slot >= 0 && Accounts(ClearSlot(s, i))
  {
    hide Total, Occupied;
    var w := s.workers[i];
    TotalOfStep(s.workers, i, w.(pc := Releasing));
    SetEntry(s.active, w.slot, Empty);
  }

  // ---------------------------------------------------------------- permits and budgets

  lemma SlotsUntouched(ws: seq<Worker>, t: Table, i: nat, w: Worker)
    requires Linked(ws, t) && i < |ws| && HoldsSlot(w.pc) == HoldsSlot(ws[i].pc)
    requires w.slot == ws[i].slot && w.job == ws[i].job
    ensures Linked(ws[i := w], t)
  {
  }

  lemma BudgetAccounts(s: State, i: nat)
    requires Accounts(s) && i < |s.workers| && s.workers[i].pc == Waited
    ensures Accounts(CheckBudget(s, i))
  {
    hide Total, Occupied, Linked;
    var w := s.workers[i];
    TotalOfStep(s.workers, i, w.(pc := Granted));
    TotalOfStep(s.workers, i, w.(pc := Denied));
    SlotsUntouched(s.workers, s.active, i, w.(pc := Granted));
    SlotsUntouched(s.workers, s.active, i, w.(pc := Denied));
  }

  /** The clamps of release never fire: what is left is what the other workers hold. */
  lemma ReleaseIsExact(s: State, i: nat)
    requires Accounts(s) && NonNegative(s.workers) && i < |s.workers| && s.workers[i].pc == Releasing
    ensures Released(s.usedCpu, s.workers[i].job.cpu) == s.usedCpu - s.workers[i].job.cpu == Others(s.workers, i).cpu
    ensures Released(s.usedMemory, s.workers[i].job.memory) == s.usedMemory - s.workers[i].job.memory == Others(s.workers, i).memory
    ensures Released(s.activeCount, 1) == s.activeCount - 1 == Others(s.workers, i).active
  {
    hide Total;
    ShareOfTotal(s.workers, i);
  }

  lemma ReleaseAccounts(s: State, i: nat)
    requires Accounts(s) && NonNegative(s.workers) && i < |s.workers| && s.workers[i].pc == Releasing
    ensures Accounts(ReleaseBudget(s, i))
  {
    hide Total, Occupied, Linked, Released;
    var w := s.workers[i];
    ReleaseIsExact(s, i);
    TotalOfStep(s.workers, i, w.(pc := Posting));
    SlotsUntouched(s.workers, s.active, i, w.(pc := Posting));
  }

  lemma PermitAccounts(s: State, i: nat, change: int, pc: Pc)
    requires Accounts(s) && i < |s.workers|
    requires || (s.workers[i].pc == Spawned && pc == Waited && change == -1 && s.permits > 0)
             || (s.workers[i].pc == Denied && pc == Failing && change == 1)
             || (s.workers[i].pc == Posting && pc == Deciding && change == 1)
    ensures Accounts(SetPc(s.(permits := s.permits + change), i, pc))
  {
    hide Total, Occupied, Linked;
    TotalOfStep(s.workers, i, s.workers[i].(pc := pc));
    SlotsUntouched(s.workers, s.active, i, s.workers[i].(pc := pc));
  }

  // ---------------------------------------------------------------- every step

  ghost predicate SameResources(s: State, s': State) {
    && s'.permits == s.permits && s'.usedCpu == s.usedCpu && s'.usedMemory == s.usedMemory
    && s'.activeCount == s.activeCount && s'.active == s.active
  }

  predicate SameHoldings(w: Worker, w': Worker) {
    && HoldsPermit(w'.pc) == HoldsPermit(w.pc) && HoldsBudget(w'.pc) == HoldsBudget(w.pc)
    && HoldsSlot(w'.pc) == HoldsSlot(w.pc) && w'.slot == w.slot && w'.job == w.job
  }

  predicate MovesResources(pc: Pc) {
    pc == Spawned || pc == Waited || pc == Denied || pc == Granted || pc == Clearing || pc == Releasing || pc == Posting
  }

  ghost predicate Quiet(s: State, s': State, i: nat)
    requires HasWorker(s, i)
  {
    SameResources(s, s') && i < |s'.workers| && SameHoldings(s.workers[i], s'.workers[i])
  }

  lemma QuietWorker(s: State, i: nat, hint: int)
    requires Enabled(s, Work(i, hint)) && !MovesResources(s.workers[i].pc)
    ensures Quiet(s, DoWork(s, i, hint), i)
  {
    hide Quiet, DoWork, Decide;
    if HoldsSlotOrClaims(s.workers[i].pc) {
      QuietInRun(s, i, hint);
    } else if s.workers[i].pc == Deciding {
      EndIs(s, i, hint);
      QuietDecision(s, i);
    } else {
      QuietAroundRun(s, i, hint);
    }
  }

  lemma QuietInRun(s: State, i: nat, hint: int)
    requires Enabled(s, Work(i, hint)) && !MovesResources(s.workers[i].pc) && HoldsSlotOrClaims(s.workers[i].pc)
    ensures Quiet(s, DoWork(s, i, hint), i)
  {
    hide AroundStep, ClaimSlot, ClearSlot, TickedOnce, QuantumExpired;
  }

  lemma QuietDecision(s: State, i: nat)
    requires HasWorker(s, i) && 0 <= s.jobs[s.workers[i].job].level < MLFQ_LEVELS && s.workers[i].pc == Deciding
    ensures Quiet(s, Decide(s, i), i)
  {
    hide Quiet, Complete, Requeue, SetPc;
    QuietComplete(s, i);
    QuietRequeue(s, i);
    QuietAbandon(s, i);
  }

  lemma QuietComplete(s: State, i: nat)
    requires HasWorker(s, i) && s.workers[i].pc == Deciding
    ensures Quiet(s, Complete(s, i), i)
  {
  }

  lemma QuietRequeue(s: State, i: nat)
    requires HasWorker(s, i) && 0 <= s.jobs[s.workers[i].job].level < MLFQ_LEVELS && s.workers[i].pc == Deciding
    ensures Quiet(s, Requeue(s, i), i)
  {
    hide Insert;
  }

  lemma QuietAbandon(s: State, i: nat)
    requires HasWorker(s, i) && s.workers[i].pc == Deciding
    ensures Quiet(s, SetPc(s.(abandoned := s.abandoned + {s.workers[i].job}), i, Exited), i)
  {
  }

  lemma QuietAroundRun(s: State, i: nat, hint: int)
    requires Enabled(s, Work(i, hint)) && !MovesResources(s.workers[i].pc) && !HoldsSlotOrClaims(s.workers[i].pc)
    requires s.workers[i].pc != Deciding
    ensures Quiet(s, DoWork(s, i, hint), i)
  {
    hide RunStep, CheckBudget, ReleaseBudget, Decide;
  }

  lemma QuietAccounts(s: State, s': State, i: nat)
    requires i < |s.workers| == |s'.workers| && s'.workers == s.workers[i := s'.workers[i]]
    requires SameHoldings(s.workers[i], s'.workers[i]) && SameResources(s, s') && Accounts(s)
    ensures Accounts(s')
  {
    hide Total, Occupied, Linked;
    TotalOfStep(s.workers, i, s'.workers[i]);
    SlotsUntouched(s.workers, s.active, i, s'.workers[i]);
  }

  lemma MovingAccounts(s: State, i: nat, hint: int)
    requires Enabled(s, Work(i, hint)) && MovesResources(s.workers[i].pc) && Accounts(s) && NonNegative(s.workers)
    ensures Accounts(DoWork(s, i, hint))
  {
    hide Accounts, CheckBudget, ReleaseBudget, ClaimSlot, ClearSlot, SetPc;
    match s.workers[i].pc {
      case Spawned => PermitAccounts(s, i, -1, Waited);
      case Waited => BudgetAccounts(s, i);
      case Denied => PermitAccounts(s, i, 1, Failing);
      case Granted => ClaimAccounts(s, i, hint);
      case Clearing => ClearAccounts(s, i);
      case Releasing => ReleaseAccounts(s, i);
      case Posting => PermitAccounts(s, i, 1, Deciding);
      case _ =>
    }
  }

  lemma WorkAccounts(s: State, i: nat, hint: int)
    requires Enabled(s, Work(i, hint)) && Accounts(s) && NonNegative(s.workers)
    ensures Accounts(DoWork(s, i, hint))
  {
    hide Accounts, SameHoldings, SameResources, DoWork;
    if MovesResources(s.workers[i].pc) {
      MovingAccounts(s, i, hint);
    } else {
      WorkFrames(s, i, hint);
      QuietWorker(s, i, hint);
      QuietAccounts(s, DoWork(s, i, hint), i);
    }
  }

  lemma SpawnAccounts(s: State, x: JobInfo, hint: int)
    requires Accounts(s) && -1 <= hint < MAX_CONCURRENT
    ensures Accounts(Spawn(s, x, hint))
  {
  }

  lemma SameWorkersAccounts(s: State, s': State)
    requires Accounts(s) && SameResources(s, s') && s'.workers == s.workers
    ensures Accounts(s')
  {
  }
}
