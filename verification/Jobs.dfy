/**
 The immutable part of a job, its status values, and the slice arithmetic of job.h.
 */
module Jobs {

  const MLFQ_LEVELS := 3
  const AGING_THRESHOLD := 15
  const MAX_JOBS := 256

  datatype Status = Waiting | Ready | Running | Preempted | Completed | Failed

  datatype Priority = Low | Medium | High | Critical {
    /** The integer the scheduler compares; an empty level answers -1 instead. */
    function Value(): (v: int)
      ensures 1 <= v <= 4
    {
      match this
      case Low => 1
      case Medium => 2
      case High => 3
      case Critical => 4
    }
  }

  /** The intended order of the priorities, by name. */
  predicate Outranks(p: Priority, q: Priority) {
    match p
    case Critical => q != Critical
    case High => q == Medium || q == Low
    case Medium => q == Low
    case Low => false
  }

  /** Comparing the integers is comparing the priorities. */
  lemma ValueOrders(p: Priority, q: Priority)
    ensures p.Value() > q.Value() <==> Outranks(p, q)
    ensures p.Value() == q.Value() <==> p == q
  {
  }

  /** The fields of a job that nothing writes after construction. In the protocol this value
      also plays the part of the job's address: two different jobs differ in `id`. */
  datatype JobInfo = JobInfo(id: int, priority: Priority, cpu: int, memory: int, burst: int, submitTime: int)

  /** MLFQ_QUANTUM, with the clamp that the slice functions apply to a level out of range. */
  function Quantum(level: int): (q: int)
    ensures q >= 2
  {
    if level == 0 then 2 else if level == 1 then 4 else 8
  }

  predicate QuantumExpired(level: int, slice: int) {
    slice >= Quantum(level)
  }

  function RemainingTicks(burst: int, elapsed: int): (r: nat)
    ensures r == 0 <==> elapsed >= burst
    ensures elapsed <= burst ==> elapsed + r == burst
  {
    if burst - elapsed < 0 then 0 else burst - elapsed
  }

  function TicksLeftInSlice(level: int, slice: int): (r: nat)
    ensures r == 0 <==> QuantumExpired(level, slice)
  {
    if Quantum(level) - slice < 0 then 0 else Quantum(level) - slice
  }

  /** The number of ticks a job of this burst can ever execute. */
  function Demand(burst: int): nat {
    if burst < 0 then 0 else burst
  }

  /** The level a job is put back at: one down when its quantum is used up, never below the last. */
  function LevelAfter(level: int, demote: bool): int {
    if !demote then level
    else if level + 1 >= MLFQ_LEVELS then MLFQ_LEVELS - 1
    else level + 1
  }
}
