/**
 How many runs a job needs when nothing disturbs it, and at which level it ends.
 */
module RunPlan {
  import opened Jobs

  /** The runs from here to completion, when every run uses its quantum or finishes the job. */
  function Runs(remaining: nat, level: int): (n: nat)
    ensures n >= 1
  {
    if remaining <= Quantum(level) then 1
    else 1 + Runs(remaining - Quantum(level), LevelAfter(level, true))
  }

  /** The level of the last of these runs. */
  function LastLevel(remaining: nat, level: int): int {
    if remaining <= Quantum(level) then level
    else LastLevel(remaining - Quantum(level), LevelAfter(level, true))
  }

  /** ceil(n / 8) for n >= 1. */
  lemma {:induction false} RunsAtBottom(remaining: nat)
    requires remaining >= 1
    ensures Runs(remaining, 2) == (remaining + 7) / 8 && LastLevel(remaining, 2) == 2
  {
    if remaining > 8 {
      RunsAtBottom(remaining - 8);
    }
  }

  /** 1 up to a burst of 2, 2 up to 6, and 2 + ceil((burst - 6) / 8) beyond. */
  function RunsFor(burst: nat): nat {
    if burst <= 2 then 1 else if burst <= 6 then 2 else 2 + (burst - 6 + 7) / 8
  }

  function LevelFor(burst: nat): nat {
    if burst <= 2 then 0 else if burst <= 6 then 1 else 2
  }

  /** The closed form: an undisturbed job completes in RunsFor(burst) runs, at level LevelFor(burst). */
  lemma ClosedForm(burst: nat)
    ensures Runs(burst, 0) == RunsFor(burst) && LastLevel(burst, 0) == LevelFor(burst)
  {
    if burst > 6 {
      RunsAtBottom(burst - 6);
      assert Runs(burst, 0) == 1 + Runs(burst - 2, 1);
      assert Runs(burst - 2, 1) == 1 + Runs(burst - 6, 2);
    } else if burst > 2 {
      assert Runs(burst, 0) == 1 + Runs(burst - 2, 1);
    }
  }

  /** A burst that ends exactly at a quantum edge costs no extra run and no demotion. */
  lemma EdgeIsNotDemoted(level: int)
    ensures Runs(Quantum(level), level) == 1 && LastLevel(Quantum(level), level) == level
    ensures Runs(Quantum(level) + 1, level) == 2 && LastLevel(Quantum(level) + 1, level) == LevelAfter(level, true)
  {
  }

  /** A full quantum that does not finish the job is one run of the plan. */
  lemma FullQuantum(left: nat, level: int)
    requires left > 0
    ensures Runs(left + Quantum(level), level) == 1 + Runs(left, LevelAfter(level, true))
    ensures LastLevel(left + Quantum(level), level) == LastLevel(left, LevelAfter(level, true))
  {
  }
}
