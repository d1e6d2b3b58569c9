/**
 Budgets, permits and the worker display flags as code. The functions that the contracts name are
 the ones that the protocol's steps are made of.
 */
module ResourceManager {
  import opened Protocol

  /** A release undoes the reservation before it; in general the clamp is idle exactly if the amount
      given back was in use. */
  lemma ReleaseUndoesReserve(used: int, amount: int)
    ensures used >= 0 ==> Released(used + amount, amount) == used
    ensures Released(used, amount) == used - amount <==> amount <= used
    ensures amount > used ==> Released(used, amount) == 0
  {
  }

  class ResourceManager {
    var usedCpu: int
    var usedMemory: int
    var activeJobs: int
    var permits: nat
    const busy: array<bool>

    constructor ()
      ensures usedCpu == usedMemory == activeJobs == 0 && permits == MAX_CONCURRENT
      ensures busy.Length == MAX_CONCURRENT && (forall k | 0 <= k < MAX_CONCURRENT :: !busy[k])
      ensures fresh(busy)
    {
      usedCpu, usedMemory, activeJobs, permits := 0, 0, 0, MAX_CONCURRENT;
      busy := new bool[MAX_CONCURRENT](_ => false);
    }

    /** acquire, from the moment its sem_wait lets the caller through. */
    method Acquire(cpu: int, memory: int) returns (ok: bool)
      requires permits > 0
      modifies this
      ensures ok <==> old(usedCpu) + cpu <= 100 && old(usedMemory) + memory <= 4096
      ensures usedCpu == old(usedCpu) + (if ok then cpu else 0)
      ensures usedMemory == old(usedMemory) + (if ok then memory else 0)
      ensures activeJobs == old(activeJobs) + (if ok then 1 else 0)
      ensures permits == old(permits) - (if ok then 1 else 0)
    {
      permits := permits - 1;
      ok := usedCpu + cpu <= TOTAL_CPU && usedMemory + memory <= TOTAL_MEMORY;
      if ok {
        usedCpu := usedCpu + cpu;
        usedMemory := usedMemory + memory;
        activeJobs := activeJobs + 1;
      }
      if !ok {
        permits := permits + 1;
      }
    }

    method Release(cpu: int, memory: int)
      modifies this
      ensures usedCpu == Released(old(usedCpu), cpu)
      ensures usedMemory == Released(old(usedMemory), memory)
      ensures activeJobs == Released(old(activeJobs), 1)
      ensures permits == old(permits) + 1
    {
      usedCpu := usedCpu - cpu;
      usedMemory := usedMemory - memory;
      if usedCpu < 0 {
        usedCpu := 0;
      }
      if usedMemory < 0 {
        usedMemory := 0;
      }
      activeJobs := activeJobs - 1;
      if activeJobs < 0 {
        activeJobs := 0;
      }
      permits := permits + 1;
    }

    method SetWorkerBusy(slot: int, b: bool)
      requires busy.Length == MAX_CONCURRENT
      modifies busy
      ensures forall k | 0 <= k < MAX_CONCURRENT :: busy[k] == if k == slot then b else old(busy[k])
    {
      if slot < 0 || slot >= MAX_CONCURRENT {
        return;
      }
      busy[slot] := b;
    }

    method GetFreeWorkerSlot() returns (found: int)
      requires busy.Length == MAX_CONCURRENT
      ensures -1 <= found < MAX_CONCURRENT
      ensures found >= 0 ==> !busy[found] && forall k | 0 <= k < found :: busy[k]
      ensures found == -1 ==> forall k | 0 <= k < MAX_CONCURRENT :: busy[k]
    {
      found := -1;
      var i := 0;
      while i < MAX_CONCURRENT
        invariant 0 <= i <= MAX_CONCURRENT && found == -1
        invariant forall k | 0 <= k < i :: busy[k]
      {
        if !busy[i] {
          found := i;
          break;
        }
        i := i + 1;
      }
    }
  }
}
