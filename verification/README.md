# TensorSched, verified

TensorSched is a multi-threaded scheduler with a three-level feedback queue: one dispatcher, one
aging thread, any number of submitters, and one detached worker for every job that is popped. This
project models its scheduling core in Dafny and proves what holds in every interleaving, what the
queue code computes in place, and how slices, runs and waiting times add up.

## How the model is built

Three parts, each in the form of the code it models.

**The protocol** (`Protocol`, then `WorkerTally`, `Accounting`, `Ownership`, `JobRecords`,
`RunInvariant`, `Safety`, `BetterCandidate`, `Sweeps`, `Counters`, `Reaching`, `Shutdown`, `Theorems`,
`History`, `Preemption`, `Rounds`, `Promotion`, `Scanning`, `Denial`, `WaitingBound`). A state machine
in which one step is one section under a lock, one semaphore operation, or one access to a shared
atomic. Workers have a program counter per such action; the dispatcher's sweep, scan and pop and the
aging thread's drain take one level's lock at a time. Numbers of jobs and workers are unbounded. An
execution is a sequence of states and steps from the
initial state, and the theorems speak of every execution. The job records carry history variables (runs
started, requests won, ticks after a win, ticks of the run, sweep marks) that no step reads; `History`
proves that they count the steps they stand for, and restates the bounds as facts about steps.

**The queue and the managers as heap code** (`LevelQueue`, `JobQueue`, `ResourceManager`,
`RingBuffer`, `Scheduler`, `Drain`, `Session`). Classes with the fields of the originals; the linked list is
relinked in place, and every method is proved against functions of `StableQueue`, `MlfqSpec`,
`Protocol` and `Slices`. These functions are the ones the protocol steps are made of, and their meaning
is fixed by lemmas: a level is the unique stable sort of the arrivals, pops follow the flat order, a
drain is a removal, priorities are ordered by name, and a slot search takes the nearest free slot.

**Arithmetic over runs** (`RunPlan`, `Slices`, `Starvation`). The closed form for undisturbed jobs,
the termination of a drain, and the bound on the level of a job that waits. The plan of runs is part
of the protocol invariant, so the closed form holds in every interleaving.

`dafny verify dfyconfig.toml` checks everything.

## Expectations that the code does not meet

Each has a concrete case and the exact condition.

- Equal priorities take turns (`main.cpp:1139` speaks of round-robin). Entries of equal priority are
  ordered by submit time also when a job is requeued: `StableQueue.TiesNeedNotRotate`, and
  `StableQueue.TiesRotateIff` for when they do.
- A job that has waited too long goes to level 0 (`main.cpp:1142`). A pass lifts a job by one level, and
  a full buffer leaves some where they are: `Starvation.BottomIsNotLifted`, `Starvation.CrowdedPass`, and
  `Starvation.OnePassReachesTop` for where a pass takes each job.
- A job that the machine has room for is run (`resource_manager.h:31-41` compares with what is free at
  that moment, and `scheduler.cpp:211-224` fails the job for good): `Denial.FeasibleJobFails`;
  `Denial.CanFailIff` says exactly which jobs of a set can fail, and `Denial.QuarterNeverFails` gives a
  simple rule under which none does.
- Some live worker can always move. All of them can wait for a moment, while the dispatcher holds
  `active_mutex_`: `Shutdown.AllCanWait`, and `Shutdown.AllWaitIff` for when; the scan itself always ends
  (`Shutdown.ScanEnds`).

## Modelling notes

- The dispatcher pops without waiting for a permit, so the order of the levels is the order of
  popping. The semaphore promises no order, and the model lets the waiting workers through in any.
- `global_mutex_` (`job_queue.h:272`) is never locked. Operations on several levels are atomic per
  level only.
- A job whose worker leaves the loop because the scheduler stops is neither requeued nor completed. It
  has its own place here, "abandoned".
- Jobs beyond `MAX_JOBS` are queued but not entered in `all_jobs_`.

## Model

| member | source | states |
|---|---|---|
| `Theorems.ClaimNeverOverwrites` | TensorSched/TensorSched/files (1)/scheduler.cpp:231-239 | in every execution, with any number of workers, the wrap-around scan of a worker that was granted its budget ends on a null entry, and the claim changes that entry alone |
| `Theorems.ClaimTakesNearest` | TensorSched/TensorSched/files (1)/scheduler.cpp:226-239 | the claim starts at the worker's hint if it has one, else at the second hint, else at 0; it takes that slot if it is free, and no free slot is nearer to it, going up and around |
| `Theorems.HintIsKept` | TensorSched/TensorSched/files (1)/scheduler.cpp:142-146 | before its claim every worker has the hint and the job that the dispatcher handed it when it spawned it |
| `Theorems.WorkersDoNotShare` | TensorSched/TensorSched/files (1)/scheduler.cpp:192-341 | two workers never have the same job in hand, and two workers in a run never share a slot |
| `Theorems.ExactlyOnePlace` | TensorSched/TensorSched/files (1)/scheduler.cpp:96-342 | conservation: a job that was handed in is in exactly one place, counted with multiplicity over submitters, levels, the dispatcher's hand, the aging thread's buffer, workers, completed, failed and abandoned; any other job is in none |
| `Theorems.SubmittedAddsUp` | TensorSched/TensorSched/files (1)/scheduler.h:9-19 | total_submitted is at all times the sum over the places, completed and failed jobs through their counters plus the workers whose count is still pending; each of the three counters by itself is the number of its jobs less those pending; the number of tracked jobs is min(jobs submitted, MAX_JOBS) |
| `Theorems.TrackedAreFirst` | TensorSched/TensorSched/files (1)/scheduler.cpp:99-103 | all_jobs_ holds the first MAX_JOBS jobs registered, in the order of registration |
| `Theorems.ResourcesExact` | TensorSched/TensorSched/files (1)/resource_manager.h:29-53 | permits plus workers between sem_wait and its sem_post is 4; used CPU and memory are the sums over granted and unreleased workers and stay within 100 and 4096; active_jobs_ is their number; occupied slots are the workers in a run; the clamps of release change nothing |
| `Theorems.DispatchBound` | TensorSched/TensorSched/files (1)/scheduler.cpp:171-328 | for every job at every moment: runs started <= 1 + preemption_count + floor(elapsed_ticks / 2) |
| `Theorems.OneWinOneLateTick` | TensorSched/TensorSched/files (1)/scheduler.cpp:267-294 | in one run at most one preemption request wins and at most one tick follows the win; the slice counts the ticks of this run alone and stays within the quantum, 2, 4 or 8 ticks by level |
| `Theorems.WinNeedsRun` | TensorSched/TensorSched/files (1)/scheduler.cpp:154-190 | a request wins only against a job whose worker is between slot claim and slot clear, and only as the first of that run |
| `Theorems.PlacesAgree` | TensorSched/TensorSched/files (1)/job_queue.h:176-253 | a job in levels_[i] has mlfq_level i, an empty slice and status READY; elapsed never exceeds the burst; COMPLETED means equality; an abandoned job is unfinished and the scheduler is down |
| `Theorems.DemotedIffQuantumUsed` | TensorSched/TensorSched/files (1)/scheduler.cpp:324-328 | on requeue the level is unchanged if the run used less than its quantum, and else one down, clamped at 2, whoever preempted it; slice and age start over |
| `Theorems.RunEnds` | TensorSched/TensorSched/files (1)/scheduler.cpp:303-339 | a worker that is done with its run completes a finished job, requeues an unfinished one if it was preempted in this run by a request or by its quantum, and abandons it otherwise, which happens only after stop |
| `Theorems.StatusGraph` | TensorSched/TensorSched/files (1)/scheduler.cpp:171-341 | every step of every thread changes every status along the intended graph |
| `Theorems.FinalStatusStays` | TensorSched/TensorSched/files (1)/scheduler.cpp:211-224 | COMPLETED and FAILED are absorbing over whole executions |
| `Theorems.LevelFixedDuringRun` | TensorSched/TensorSched/files (1)/scheduler.cpp:231-298 | no step of any thread changes the level of a job while a worker runs it |
| `Theorems.WaitWithinSweeps` | TensorSched/TensorSched/files (1)/job_queue.h:255-258 | wait_ticks is at most the number of sweeps begun since submission, and 0 <= aging_ticks <= wait_ticks |
| `Theorems.SweepsTickOnce` | TensorSched/TensorSched/files (1)/job_queue.h:96-105 | between any two moments wait_ticks grows by at most one per sweep begun, plus one for a sweep under way, although promotions, submissions and requeues go on between the level locks |
| `Rounds.CyclesAreComplete` | TensorSched/TensorSched/files (1)/scheduler.cpp:125-152 | in every execution each level is swept once for every cycle begun with a sweep, each of the four slots is looked at once for every cycle begun, and a pop is started at level 0 once, less what the cycle under way has still before it |
| `Rounds.PassesAreComplete` | TensorSched/TensorSched/files (1)/job_queue.h:234-253 | in every execution levels 1 and 2 are each drained once for every pass begun, less what the pass under way has still before it |
| `Rounds.ThreadsEndOnlyAfterStop` | TensorSched/TensorSched/files (1)/scheduler.cpp:128-152 | the running flag is up exactly until stop(), and the dispatcher and the aging thread do not end before |
| `Promotion.WaitCountsSweeps` | TensorSched/TensorSched/files (1)/job_queue.h:96-105 | wait_ticks is exactly the number of sweep actions that found the job in the level whose lock they held |
| `Promotion.AgeCountsSweeps` | TensorSched/TensorSched/files (1)/job_queue.h:96-105 | the age of a queued job is exactly the number of sweep actions that met it since it last came into a level, by submission, requeue or promotion |
| `Promotion.DrainTakesOldOnly` | TensorSched/TensorSched/files (1)/job_queue.h:107-134 | in every execution a job comes into the aging thread's buffer only from the level that is drained and only at an age of at least 15 |
| `Promotion.DrainLeavesOnlyBehind` | TensorSched/TensorSched/files (1)/job_queue.h:107-134 | in every execution a drain takes at most 64 jobs, and leaves a job of age 15 or more only when it has taken 64 from places in front of it |
| `Promotion.PromotesOneLevel` | TensorSched/TensorSched/files (1)/job_queue.h:238-247 | the drained jobs are pushed in buffer order, each exactly one level up, with a fresh slice and age 0 |
| `History.CountsAreSteps` | TensorSched/TensorSched/files (1)/scheduler.cpp:171-294 | in every execution runs, elapsed_ticks, preemption_count and the sweep number of the model are the numbers of slot claims, ticks, won requests (less one still to be counted) and sweeps begun; a job is disturbed exactly if a request was won against it or it was promoted |
| `History.UndisturbedRuns` | TensorSched/TensorSched/files (1)/scheduler.cpp:267-328 | the closed form in every interleaving: a completed job never hit by a request and never promoted has had exactly 1 run if its burst is at most 2, 2 if at most 6, else 2 + ceil((burst - 6) / 8), and ends at level 0, 1 or 2 |
| `History.OneTickAfterWin` | TensorSched/TensorSched/files (1)/scheduler.cpp:267-294 | over steps: after a won request at most one tick of the job is executed until its next slot claim |
| `History.OneWinPerRun` | TensorSched/TensorSched/files (1)/scheduler.cpp:154-190 | over steps: between two requests won against a job, a worker claims a slot for it |
| `History.ClaimBound` | TensorSched/TensorSched/files (1)/scheduler.cpp:171-328 | over steps: slot claims for a job <= 1 + requests won against it + floor(ticks / 2) |
| `Preemption.PreemptionsBounded` | TensorSched/TensorSched/files (1)/scheduler.cpp:125-190 | no preemption without cause: in every execution the requests won against a job are at most 1 + the pops that come first after a hit of the job and hand over a job that beats it at its level then + the drains that take jobs out of a level |
| `Preemption.StepKeepsFeud` | TensorSched/TensorSched/files (1)/scheduler.cpp:154-190 | the step form, for any thread's step: better pops plus drains, plus 1 if the job was hit since the last pop and less 1 if a drain took jobs since then, never decreases and grows with every won request |
| `Scanning.ScanHits` | TensorSched/TensorSched/files (1)/scheduler.cpp:154-169 | the scan is complete in every interleaving: if x sits in the table and is RUNNING until it is hit, and some job stays queued at a better level, or at the level of x with a higher priority, then this scan wins a request against x |
| `Scanning.HitWasDisplaced` | TensorSched/TensorSched/files (1)/scheduler.cpp:161-166 | the scan is sound: when a request is won against x, the dispatcher saw such a job at its last look at the levels, and has done nothing else since |
| `Scanning.PreemptionHappens` | TensorSched/TensorSched/files (1)/scheduler.cpp:171-190 | requests are won: for any job that fits the machine and any job that outranks it, an execution in which a request is won against the first |
| `Scanning.PopTakesHighest` | TensorSched/TensorSched/files (1)/job_queue.h:198-204 | the pop under concurrency: it looks at the levels from the top, goes on only past an empty one, takes from the first that is not empty a job that no other there outranks, of equals the one submitted first, and gives up only when it has found all three empty |
| `History.WaitSinceSubmission` | TensorSched/TensorSched/files (1)/job_queue.h:255-258 | wait_ticks is at most the number of wait sweeps begun since the job was submitted |
| `Safety.ReachableSafe` | TensorSched/TensorSched/files (1)/scheduler.cpp:125-366 | the inductive invariant (ownership, accounting, job records, references of the scan) holds in every state of every execution |
| `Safety.StepKeepsLevel` | TensorSched/TensorSched/files (1)/scheduler.cpp:231-298 | the step form of the fixed level: whichever thread moves |
| `Ownership.StepKeepsOwned` | TensorSched/TensorSched/files (1)/scheduler.cpp:96-342 | each single step keeps every job in exactly one place |
| `Ownership.NotElsewhere` | TensorSched/TensorSched/files (1)/scheduler.cpp:192-341 | a job that a worker owns is in no queue, buffer, hand, submitter or terminal place and with no other worker |
| `Accounting.ClaimFindsEmpty` | TensorSched/TensorSched/files (1)/scheduler.cpp:231-239 | counting permits against holders leaves a free entry for every granted worker |
| `Accounting.ReleaseIsExact` | TensorSched/TensorSched/files (1)/resource_manager.h:43-53 | what is left after a release is exactly what the other workers hold, so the clamps at zero are idle |
| `Denial.DeniedIff` | TensorSched/TensorSched/files (1)/resource_manager.h:29-42 | in every execution a worker that checks the budgets is denied exactly if its demand and the sums over the granted and unreleased jobs exceed 100 per cent CPU or 4096 MB; these are at most three other jobs |
| `Denial.FailedIffDenied` | TensorSched/TensorSched/files (1)/scheduler.cpp:209-224 | a job is refused, marked FAILED or about to be, exactly if an earlier budget check denied it, and that happens at most once |
| `Denial.CanFailIff` | TensorSched/TensorSched/files (1)/resource_manager.h:31-41 | for any set of jobs: some execution that submits only these fails x if and only if x is one of them and at most three others, which fit together, leave too little for x |
| `Denial.QuarterNeverFails` | TensorSched/TensorSched/files (1)/resource_manager.h:31-41 | in an execution in which no submitted job needs more than a quarter of either budget, no job fails |
| `Denial.PairCanFail` | TensorSched/TensorSched/files (1)/scheduler.cpp:209-224 | of two jobs that fit the machine one by one and not together, either can fail |
| `Denial.FeasibleJobFails` | TensorSched/TensorSched/files (1)/scheduler.cpp:209-224 | a concrete job of 60 per cent CPU that fits an idle machine and is failed in some execution |
| `Protocol.FindSlotNearest` | TensorSched/TensorSched/files (1)/scheduler.cpp:232-237 | the scan takes its start if that is free; in general no free slot is nearer going up and around, and it ends on its start again only if none is free |
| `BetterCandidate.PopReturnsBetter` | TensorSched/TensorSched/files (1)/scheduler.cpp:134-136 | a better candidate once seen, and not taken by the aging thread since, forces the following pop to return a job, and one that is strictly better, whatever is pushed concurrently |
| `BetterCandidate.YesMeansBetterPop` | TensorSched/TensorSched/files (1)/job_queue.h:198-215 | from the yes of the query at one step to the end of the next pop: unless a drain takes the very job that the query saw, that pop hands over a job strictly better than the running job asked about |
| `Sweeps.StepKeepsMarks` | TensorSched/TensorSched/files (1)/job_queue.h:234-258 | no step lets a promoted, submitted or requeued job be met twice by the sweep under way |
| `Sweeps.StepKeepsSlack` | TensorSched/TensorSched/files (1)/job_queue.h:96-105 | the step form of the once-per-sweep bound |
| `Counters.SubmittedIsSumOverPlaces` | TensorSched/TensorSched/files (1)/scheduler.cpp:105-105 | the sum over places from ownership and the lag of each counter |
| `Shutdown.WorkersProgress` | TensorSched/TensorSched/files (1)/resource_manager.h:29-53 | while active_mutex_ is not held by the scan, live workers never all wait: no permit left means four holders, and one of them can move |
| `Shutdown.AllWaitIff` | TensorSched/TensorSched/files (1)/scheduler.cpp:154-169 | the exact condition: all live workers wait if and only if the dispatcher is in its scan and each of them waits for active_mutex_ or finds no permit |
| `Shutdown.AllCanWait` | TensorSched/TensorSched/files (1)/scheduler.cpp:231-231 | that condition is reachable: an execution after which the only worker waits for the scan |
| `Shutdown.OnlyWaitsBlock` | TensorSched/TensorSched/files (1)/scheduler.cpp:125-342 | in every safe state submitters, the aging thread and the dispatcher are never blocked, and a live worker is blocked exactly while it waits for a permit or for active_mutex_ |
| `Shutdown.ScanEnds` | TensorSched/TensorSched/files (1)/scheduler.cpp:154-169 | the scan never waits and ends: each of its actions is enabled and lowers a rank |
| `Shutdown.StoppingStep` | TensorSched/TensorSched/files (1)/scheduler.cpp:88-94 | once stop() has cleared the flag it stays down, every step of the dispatcher, the aging thread or a worker lowers a rank, its own thread's and the total, and no other step, submissions included, gives any back |
| `Shutdown.StopIsBounded` | TensorSched/TensorSched/files (1)/scheduler.cpp:88-94 | in every execution, from the moment stop() clears the flag: the dispatcher takes at most 50 more actions, the aging thread and the workers boundedly many |
| `Shutdown.StoppedIsClean` | TensorSched/TensorSched/files (1)/scheduler.cpp:88-94 | when the scheduler's own threads can take no step after stop(), the dispatcher and the aging thread have ended, so both joins return, all workers have exited, permits are 4, the budgets 0 and every active_jobs_ entry is null |
| `Shutdown.DownStep` | TensorSched/TensorSched/files (1)/scheduler.cpp:88-94 | once the flag is down and the dispatcher has left, every worker step lowers a global measure and nothing raises it |
| `Shutdown.WorkIsBounded` | TensorSched/TensorSched/files (1)/scheduler.cpp:267-341 | in every execution the number of worker steps after the shutdown is bounded by that measure |
| `Shutdown.RestIsClean` | TensorSched/TensorSched/files (1)/scheduler.cpp:296-301 | when no worker can move after the shutdown, all have exited, permits are 4, used CPU and memory are 0 and every active_jobs_ entry is null |
| `StableQueue.LevelRefinesStableSort` | TensorSched/TensorSched/files (1)/job_queue.h:24-134 | after any history of pushes, pops and drains a level is the one and only stable sort, by priority descending and submit time ascending, of the jobs still present in arrival order |
| `StableQueue.StableSortUnique` | TensorSched/TensorSched/files (1)/job_queue.h:24-58 | sortedness together with arrival order within each key determines a list |
| `StableQueue.PushRefinesStableSort` | TensorSched/TensorSched/files (1)/job_queue.h:34-54 | one push: the stable sort of the old arrivals becomes the stable sort of the arrivals with the new job at the end |
| `StableQueue.PushesCommute` | TensorSched/TensorSched/files (1)/job_queue.h:34-54 | pushes of jobs with distinct keys commute |
| `StableQueue.TiesRotateIff` | TensorSched/TensorSched/files (1)/job_queue.h:36-40 | a job popped from the head of a level and pushed back goes behind its equals in priority exactly if none of them was submitted later |
| `StableQueue.TiesNeedNotRotate` | TensorSched/TensorSched/files (1)/main.cpp:1139-1139 | a concrete level on which equal priorities do not take turns, although the text speaks of round-robin |
| `StableQueue.DrainTakesFirstAged` | TensorSched/TensorSched/files (1)/job_queue.h:107-134 | a drain takes exactly the first min(room, number aged) aged jobs, in list order |
| `StableQueue.DrainIsRemoval` | TensorSched/TensorSched/files (1)/job_queue.h:107-134 | what a drain leaves is the list without the jobs it took, in the old order |
| `StableQueue.KeptKeepsSorted` | TensorSched/TensorSched/files (1)/job_queue.h:107-134 | a level stays sorted when it is drained |
| `LevelQueue.SingleLevelQueue.Push` | TensorSched/TensorSched/files (1)/job_queue.h:24-58 | the linked list after a push is the abstract insertion; it stays one acyclic sorted chain and size_ its length |
| `LevelQueue.SingleLevelQueue.TryPop` | TensorSched/TensorSched/files (1)/job_queue.h:60-73 | removes and returns the head of the chain, or answers null on an empty list and changes nothing; from a level that holds a CRITICAL job it returns a CRITICAL one, else a HIGH one if there is any, else a MEDIUM one, and of equal priority the one submitted first |
| `LevelQueue.SingleLevelQueue.TopPriority` | TensorSched/TensorSched/files (1)/job_queue.h:75-80 | the greatest priority in the level, -1 for an empty one |
| `LevelQueue.SingleLevelQueue.TickWaiting` | TensorSched/TensorSched/files (1)/job_queue.h:96-105 | both wait counters of every queued job grow by one for each place it has in the list |
| `LevelQueue.SingleLevelQueue.DrainAged` | TensorSched/TensorSched/files (1)/job_queue.h:107-134 | in-place filtered removal: the array holds the drained jobs in list order, the chain the others, size_ is reduced by their number |
| `LevelQueue.SingleLevelQueue.Snapshot` | TensorSched/TensorSched/files (1)/job_queue.h:136-146 | copies the first min(max_count, length) jobs of the list in order |
| `MlfqSpec.PopsAreFlat` | TensorSched/TensorSched/files (1)/job_queue.h:198-204 | n pops return the first min(n, size) jobs in level order, so a queue is empty after exactly as many successful pops as its size |
| `MlfqSpec.HeadTestIsEnough` | TensorSched/TensorSched/files (1)/job_queue.h:206-215 | the emptiness and head tests answer whether any queued job is better, because levels are sorted |
| `MlfqSpec.PopBeats` | TensorSched/TensorSched/files (1)/job_queue.h:198-215 | if some queued job is better than (level, priority), the job a pop returns is |
| `MlfqSpec.AgePassMoves` | TensorSched/TensorSched/files (1)/job_queue.h:234-253 | an atomic pass promotes the first min(64, number aged) aged jobs of levels 1 and 2 one level each, preserves the multiset of queued jobs and the sortedness of all levels; at every level the jobs that are not promoted keep their order, and level 2 is the old list without the promoted jobs |
| `MlfqSpec.AgePassKeepsOrder` | TensorSched/TensorSched/files (1)/job_queue.h:234-253 | level by level: taking the newcomers out again gives the old list without the jobs that left, in the old order |
| `MlfqSpec.AgePassArrives` | TensorSched/TensorSched/files (1)/job_queue.h:234-253 | levels 0 and 1 after a pass are the stable sorts of what was there with the promoted jobs behind it in the order in which they were drained |
| `JobQueue.MLFQJobQueue.PushNew` | TensorSched/TensorSched/files (1)/job_queue.h:176-183 | resets level, slice and age, marks the job READY and inserts it at level 0 |
| `JobQueue.MLFQJobQueue.RequeuePreempted` | TensorSched/TensorSched/files (1)/job_queue.h:185-196 | without demotion the level is unchanged, with it one level down, clamped at the last; a fresh slice, age zero, READY, inserted at the level it says |
| `JobQueue.MLFQJobQueue.TryPop` | TensorSched/TensorSched/files (1)/job_queue.h:198-204 | pops the head of the first level that is not empty, which no job of that level outranks, or answers null if all are empty |
| `JobQueue.MLFQJobQueue.HasBetterCandidate` | TensorSched/TensorSched/files (1)/job_queue.h:206-215 | true if and only if some queued job is at a better level, or at this level with a higher priority, in the order LOW, MEDIUM, HIGH, CRITICAL |
| `Jobs.ValueOrders` | TensorSched/TensorSched/files (1)/job.h:17-22 | comparing the integers is comparing the priorities by name |
| `JobQueue.MLFQJobQueue.RunAging` | TensorSched/TensorSched/files (1)/job_queue.h:234-253 | the three heap lists after a pass are the abstract pass, the promoted jobs are at level 0 or 1 with slice and age 0, none is promoted twice even if it were queued at two levels, and their number is returned |
| `JobQueue.MLFQJobQueue.Size` | TensorSched/TensorSched/files (1)/job_queue.h:223-227 | the number of jobs in all levels |
| `JobQueue.MLFQJobQueue.TickWaiting` | TensorSched/TensorSched/files (1)/job_queue.h:255-258 | both wait counters of every queued job grow by one for each place it has in the queue |
| `JobQueue.MLFQJobQueue.Snapshot` | TensorSched/TensorSched/files (1)/job_queue.h:260-268 | the first min(max_count, size) jobs in level order, which are those that the next pops return; none for a negative max_count |
| `ResourceManager.ResourceManager.Acquire` | TensorSched/TensorSched/files (1)/resource_manager.h:29-42 | grants exactly if the totals stay within 100 per cent CPU and 4096 MB; a denial leaves budgets and permits as they were |
| `ResourceManager.ResourceManager.Release` | TensorSched/TensorSched/files (1)/resource_manager.h:43-53 | gives the budgets back, clamped at zero, and one permit |
| `ResourceManager.ResourceManager.SetWorkerBusy` | TensorSched/TensorSched/files (1)/resource_manager.h:54-75 | sets or clears the flag of one slot and of no other; a slot out of range changes nothing |
| `ResourceManager.ResourceManager.GetFreeWorkerSlot` | TensorSched/TensorSched/files (1)/resource_manager.h:76-84 | the lowest slot not shown as busy, -1 if there is none |
| `ResourceManager.ReleaseUndoesReserve` | TensorSched/TensorSched/files (1)/resource_manager.h:43-50 | a release undoes the reservation; the clamp is idle if and only if the amount was in use, and else leaves 0 |
| `Scheduler.Scheduler.SubmitJob` | TensorSched/TensorSched/files (1)/scheduler.cpp:96-118 | tracks the job only below MAX_JOBS, counts and queues it in any case; any list node it adds is new, so a caller can go on submitting |
| `Scheduler.Scheduler.Claim` | TensorSched/TensorSched/files (1)/scheduler.cpp:231-239 | writes one slot and no other: the start if its entry is null, else the nearest null entry going up and around; the start again only if none is null |
| `Scheduler.Scheduler.RequestPreemption` | TensorSched/TensorSched/files (1)/scheduler.cpp:171-190 | wins exactly against RUNNING, and then counts once for the job and once overall |
| `Scheduler.Scheduler.CheckPreemptions` | TensorSched/TensorSched/files (1)/scheduler.cpp:154-169 | hits exactly the RUNNING jobs in the table for which a job is queued at a better level, or at theirs with a higher priority, once each; counts exactly these, and leaves every other job as it was |
| `Scheduler.Scheduler.RunSlice` | TensorSched/TensorSched/files (1)/scheduler.cpp:265-294 | with a preemption request and a stop landing at any tick, or never: at most as many ticks as come before the request, before the stop, within the burst and within the quantum, and as many as one of these allows; reports a preemption exactly if the job is unfinished and the scheduler up |
| `Scheduler.UndisturbedRun` | TensorSched/TensorSched/files (1)/scheduler.cpp:267-294 | a fresh slice without request and stop is one step of the progress function |
| `Scheduler.Scheduler.Finish` | TensorSched/TensorSched/files (1)/scheduler.cpp:303-339 | the end of a run: complete; or requeue at the same level if the quantum is not used up and else one down, clamped at 2, with slice and age 0; or leave the job alone |
| `Scheduler.Scheduler.RunJob` | TensorSched/TensorSched/files (1)/scheduler.cpp:241-339 | a whole run under such interference: COMPLETED and in no list; or READY, reset and queued, at its level if the quantum is not used up and else one down; or left as it is by the shutdown |
| `Slices.RunUsesUpOne` | TensorSched/TensorSched/files (1)/scheduler.cpp:267-328 | each undisturbed run uses up one of the runs that the job has still to make, and ticks unless it completes |
| `RunPlan.ClosedForm` | TensorSched/TensorSched/files (1)/job.h:24-24 | an undisturbed job of burst B needs 1 run if B <= 2, 2 if B <= 6, else 2 + ceil((B - 6) / 8), ending at level 0, 1 or 2 |
| `RunPlan.EdgeIsNotDemoted` | TensorSched/TensorSched/files (1)/job.h:89-93 | a burst that ends at a quantum edge completes without demotion; one tick more costs a run and a level |
| `Slices.CycleShrinks` | TensorSched/TensorSched/files (1)/scheduler.cpp:136-149 | pop, run, complete-or-requeue lowers the sum of remaining ticks plus the number of queued jobs |
| `Slices.DrainAll` | TensorSched/TensorSched/files (1)/scheduler.cpp:128-151 | on values: without submissions the loop ends with an empty queue; every job that fits the machine completes, a fresh one in exactly the runs of the closed form, and every other job fails |
| `Slices.FreshRuns` | TensorSched/TensorSched/files (1)/job.h:24-24 | the planned runs of a fresh job are those of the closed form |
| `Drain.TickIfDue` | TensorSched/TensorSched/files (1)/scheduler.cpp:128-132 | every fourth cycle both wait counters of every queued job grow by one for each place it has in the queue; in any other cycle nothing changes |
| `Drain.Round` | TensorSched/TensorSched/files (1)/scheduler.cpp:128-151 | one round over the linked lists (the wait sweep of every fourth cycle, the preemption scan, the pop, the slot hint, and the whole worker with acquire, slot claim, busy flag, run, slot clear and release) is one cycle of the machine on values, and leaves the table, the flags and the budgets idle |
| `Drain.DrainLists` | TensorSched/TensorSched/files (1)/scheduler.cpp:128-151 | the loop over the heap queue without submissions, one worker at a time, ends with an empty queue and table and idle budgets; every job that fits the machine is COMPLETED with exactly its burst executed, a fresh one in the runs of the closed form; every other job is FAILED |
| `Session.RunAll` | TensorSched/TensorSched/files (1)/scheduler.cpp:96-342 | a complete client without preconditions on the scheduler: for any sequence of distinct jobs it builds the scheduler and the manager, submits every job and drains; every job that fits the machine ends COMPLETED with exactly its burst executed in the runs of the closed form, every other FAILED |
| `Session.SubmitAll` | TensorSched/TensorSched/files (1)/scheduler.cpp:96-118 | any number of submissions in a row to an empty queue: level 0 then holds exactly these jobs, the other levels nothing, and total_submitted has grown by their number |
| `RingBuffer.RingBuffer.Append` | TensorSched/TensorSched/files (1)/scheduler.cpp:368-383 | the buffer refines the history with the record appended; the index is in range at any head |
| `RingBuffer.RingBuffer.Snapshot` | TensorSched/TensorSched/files (1)/scheduler.cpp:409-418 | exactly the last min(max_count, capacity, appends) records in append order; a negative max_count copies nothing and is returned |
| `Starvation.OnlySweepsAge` | TensorSched/TensorSched/files (1)/job_queue.h:96-105 | only a sweep ages, only a queued job ages, and by one tick; only a push and a promotion start the age over |
| `Starvation.ActMoves` | TensorSched/TensorSched/files (1)/job_queue.h:96-134 | while a job stays queued, no operation moves it down, and at its level it ages with every sweep |
| `Starvation.PassPlaces` | TensorSched/TensorSched/files (1)/job_queue.h:234-253 | a pass puts a job one level up if it is promoted and leaves it otherwise; nobody is promoted twice |
| `Starvation.OnePassReachesTop` | TensorSched/TensorSched/files (1)/main.cpp:1142-1142 | a pass takes a job one level up, to age 0, exactly if its age is at least 15 and fewer than 64 aged jobs are in front of it at level 1 or 2; so it reaches level 0 exactly from there or from level 1 when due |
| `Starvation.BottomIsNotLifted` | TensorSched/TensorSched/files (1)/main.cpp:1142-1142 | a concrete aged job of level 2 that the pass takes to level 1, although the text says L0 |
| `Starvation.CrowdedPass` | TensorSched/TensorSched/files (1)/job_queue.h:235-240 | with more than 64 aged jobs at a level, some aged job stays there |
| `Starvation.SegmentClimbs` | TensorSched/TensorSched/files (1)/job_queue.h:234-258 | 15 complete sweeps and a pass that finds at most 64 aged jobs at its level, if it drains that level, lift a job by at least one level unless it is at the top |
| `Starvation.AntiStarvation` | TensorSched/TensorSched/files (1)/job_queue.h:96-258 | with queue operations atomic, over whole histories: a job that stays queued through k such segments is at most at level max(0, l - k), whatever other jobs are pushed, popped and promoted |
| `WaitingBound.StaysAndAges` | TensorSched/TensorSched/files (1)/job_queue.h:96-134 | over executions with per-level locks: a job that waits and is queued at the end at the level it had at the beginning was queued there all the time and has aged with every sweep that reached the level |
| `WaitingBound.PassClimbs` | TensorSched/TensorSched/files (1)/job_queue.h:234-258 | over executions: 15 sweeps of its level, then a drain of that level that finds at most 64 jobs of age 15 or more, and the emptying of the aging thread's buffer lift a waiting job by at least one level, whatever steps come in between |
| `WaitingBound.WaitingClimbs` | TensorSched/TensorSched/files (1)/scheduler.cpp:349-366 | the anti-starvation bound over executions: after k such stretches a job that has waited all the time, queued or in the aging thread's buffer, is at most at level max(0, l - k) |

## Left out

- `AntiStarvation`: takes each push, pop, sweep and pass as one step; `WaitingBound.WaitingClimbs` is the
  bound for the per-level interleaving.
- `DrainAll`: works on queue values and progress records; `Drain.DrainLists` does the same over the heap
  lists.
- `DrainLists`: each worker runs to its end before the next round, and the loop ends at the first empty
  pop, where the code sleeps and goes on; nothing is promoted or submitted meanwhile. The protocol has all of these.
- `RunSlice`: one preemption request and one stop can land, at any tick; a second request in a run has no
  effect, which `Theorems.OneWinOneLateTick` and `History.OneWinPerRun` show in the protocol.
- `Acquire`: starts where `sem_wait` lets the caller through; the waiting is in the protocol.
- `YesMeansBetterPop`: assumes that the aging thread does not take the job that the query saw before the
  pop ends, since a drained job is in no level until it is pushed again.
- main.cpp: drawing, forms, presets and the copy of the log are user interface.
- Platform shims and build files: mutex sections are atomic steps, and the semaphore is a counter.
- Timestamps, log texts, callbacks, `usleep`; in the protocol the cadence of one sweep in four cycles: sweeps, passes
  and submissions may come at any moment, and the submit time is an unchanging integer key.
- `recalcStats` and the averages, percentages and throughput: floating point, for display only.
- The display fields of `WorkerSlot`: only the busy flag is in the `ResourceManager` class, and the
  protocol takes the slot hint as any value from -1 to 3.
- `has_started`, `assigned_worker`, start, finish and last-ready times, `global_tick_`,
  `total_aging_promotions`; `total_preemptions` is in the `Scheduler` class but not in the protocol.
- A second `start` after `stop`: the program starts and stops the scheduler once.
- Calls of `requestPreemption` from outside the scan: the method is public, but nothing calls it so.
- Allocation and thread-creation failure, and the lifetime and destruction of jobs, nodes and threads.
- Integer overflow and negative CPU or memory demands: integers are unbounded, and a submitted job's
  demands are at least 0. Negative bursts are included.
- Field writes just before a push are part of the push step, as the job is then reachable from one
  thread only.
- `allJobsSnapshot`, `sizeAtLevel` and the plain getters: they copy or return fields for display.
