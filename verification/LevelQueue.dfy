/**
 One level of the queue as heap code: a singly linked list with ordered insertion in place and
 filtered removal in place. Its abstract value is the ghost field `jobs`, the jobs in list order.
 */
module LevelQueue {
  import opened Jobs
  import opened StableQueue

  class Job {
    const info: JobInfo
    var status: Status
    var elapsedTicks: int
    var waitTicks: int
    var preemptionCount: int
    var mlfqLevel: int
    var ticksThisSlice: int
    var agingTicks: int

    constructor (info: JobInfo)
      ensures this.info == info && status == Waiting
      ensures elapsedTicks == waitTicks == preemptionCount == 0
      ensures mlfqLevel == ticksThisSlice == agingTicks == 0
    {
      this.info := info;
      status := Waiting;
      elapsedTicks, waitTicks, preemptionCount := 0, 0, 0;
      mlfqLevel, ticksThisSlice, agingTicks := 0, 0, 0;
    }

    predicate Expired()
      reads this
    {
      QuantumExpired(mlfqLevel, ticksThisSlice)
    }

    /** As a promotion or a requeue leaves it: a fresh slice, and its age starts over. */
    predicate ResetAt(level: int)
      reads this
    {
      mlfqLevel == level && ticksThisSlice == 0 && agingTicks == 0
    }
  }

  function JobKey(j: Job): Key {
    Key(j.info.priority.Value(), j.info.submitTime)
  }

  predicate Holds(js: seq<Job>, p: Priority) {
    exists j | j in js :: j.info.priority == p
  }

  /** The head of a sorted list: no job in it has a higher priority, and of those with the same
      priority it was submitted first. */
  lemma HeadIsFirst(js: seq<Job>)
    requires Sorted(JobKey, js) && js != []
    ensures forall j | j in js :: !Outranks(j.info.priority, js[0].info.priority)
    ensures forall j | j in js && j.info.priority == js[0].info.priority :: js[0].info.submitTime <= j.info.submitTime
  {
    forall j | j in js
      ensures !Outranks(j.info.priority, js[0].info.priority)
      ensures j.info.priority == js[0].info.priority ==> js[0].info.submitTime <= j.info.submitTime
    {
      ValueOrders(j.info.priority, js[0].info.priority);
      var i :| 0 <= i < |js| && js[i] == j;
      assert i > 0 ==> !Before(JobKey(js[i]), JobKey(js[0]));
    }
  }

  /** The age test of drainAged, for every job of a list. */
  function AgeTests(js: seq<Job>): (r: seq<bool>)
    reads js
    ensures |r| == |js|
    ensures forall i | 0 <= i < |js| :: r[i] <==> js[i].agingTicks >= AGING_THRESHOLD
  {
    if js == [] then [] else [js[0].agingTicks >= AGING_THRESHOLD] + AgeTests(js[1..])
  }

  class QueueNode {
    const job: Job
    var next: QueueNode?

    constructor (job: Job)
      ensures this.job == job && next == null
    {
      this.job := job;
      next := null;
    }
  }

  /** Each node leads to the next one, and the last to null. */
  ghost predicate Chain(ns: seq<QueueNode>)
    reads ns
  {
    Joined(ns, |ns|) && (ns != [] ==> ns[|ns| - 1].next == null)
  }

  /** The successor clause at every place but one, before which the chain may be open. */
  ghost predicate Joined(ns: seq<QueueNode>, gap: nat)
    reads ns
  {
    forall i, k {:trigger ns[i], ns[k]} | 0 <= i < k < |ns| && k == i + 1 && k != gap :: ns[i].next == ns[k]
  }

  /** The nodes carry the jobs, place by place, and belong to the set. */
  ghost predicate Carry(ns: seq<QueueNode>, js: seq<Job>, r: set<QueueNode>) {
    |ns| == |js| && forall i | 0 <= i < |ns| :: ns[i] in r && ns[i].job == js[i]
  }

  lemma CarryInserted(ns: seq<QueueNode>, js: seq<Job>, r: set<QueueNode>, i: nat, node: QueueNode)
    requires Carry(ns, js, r) && i <= |ns|
    ensures |ns| == |js| && Carry(ns[..i] + [node] + ns[i..], js[..i] + [node.job] + js[i..], r + {node})
  {
  }

  lemma CarryRemoved(ns: seq<QueueNode>, js: seq<Job>, r: set<QueueNode>, k: nat)
    requires Carry(ns, js, r) && k < |ns|
    ensures |ns| == |js| && Carry(ns[..k] + ns[k + 1..], js[..k] + js[k + 1..], r)
  {
  }

  lemma ChainInserted(ns: seq<QueueNode>, i: nat, node: QueueNode)
    requires i <= |ns| && Joined(ns, i)
    requires i > 0 ==> ns[i - 1].next == node
    requires node.next == if i < |ns| then ns[i] else null
    requires i < |ns| ==> ns[|ns| - 1].next == null
    ensures Chain(ns[..i] + [node] + ns[i..])
  {
  }

  lemma ChainRemoved(ns: seq<QueueNode>, k: nat)
    requires k < |ns| && Joined(ns, k)
    requires k > 0 ==> ns[k - 1].next == if k + 1 < |ns| then ns[k + 1] else null
    requires k + 1 < |ns| ==> ns[|ns| - 1].next == null
    ensures Chain(ns[..k] + ns[k + 1..])
  {
    var rest := ns[..k] + ns[k + 1..];
    forall i, j | 0 <= i < j < |rest| && j == i + 1 ensures rest[i].next == rest[j] {
      assert i + 1 < k ==> ns[i].next == ns[i + 1];
      assert i >= k ==> ns[i + 1].next == ns[i + 2];
    }
  }

  lemma DistinctRemoved<T>(s: seq<T>, k: nat)
    requires Distinct(s) && k < |s|
    ensures Distinct(s[..k] + s[k + 1..])
    ensures forall i | 0 <= i < |s| && i != k :: s[i] != s[k]
  {
  }

  class SingleLevelQueue {
    var head: QueueNode?
    var size: int
    /** The chain from the head, the job of each of its nodes, and a set holding all the nodes. */
    ghost var nodes: seq<QueueNode>
    ghost var jobs: seq<Job>
    ghost var repr: set<QueueNode>

    ghost function NodeAt(i: nat): QueueNode?
      reads this
    {
      if i < |nodes| then nodes[i] else null
    }

    /** The nodes form one acyclic chain from the head, and `size` is its length. */
    ghost predicate Linked()
      reads this, repr
    {
      && size == |nodes| == |jobs|
      && head == NodeAt(0) && Carry(nodes, jobs, repr)
      && Chain(nodes) && Distinct(nodes)
    }

    ghost predicate Valid()
      reads this, repr
    {
      Linked() && Sorted(JobKey, jobs)
    }

    constructor ()
      ensures Valid() && jobs == [] && repr == {}
    {
      head := null;
      size := 0;
      nodes, jobs, repr := [], [], {};
    }

    /** Relinks `node` between its neighbours: behind `prev`, or at the head. */
    method LinkBehind(prev: QueueNode?, node: QueueNode, ghost i: nat)
      requires Linked() && i <= |nodes| && node !in repr
      requires prev == if i == 0 then null else nodes[i - 1]
      modifies this, prev, node
      ensures Linked() && jobs == old(jobs[..i] + [node.job] + jobs[i..])
      ensures repr == old(repr) + {node} && size == old(size) + 1
    {
      hide Distinct, Chain, Carry;
      ghost var was := nodes;
      NotInChain(node);
      CarryInserted(was, jobs, repr, i, node);
      DistinctInsert(was, i, node);
      ChainAt(i);
      if prev == null {
        node.next := head;
        head := node;
      } else {
        node.next := prev.next;
        prev.next := node;
      }
      size := size + 1;
      nodes := was[..i] + [node] + was[i..];
      jobs := jobs[..i] + [node.job] + jobs[i..];
      repr := repr + {node};
      ChainInserted(was, i, node);
    }

    lemma NotInChain(node: QueueNode)
      requires Linked() && node !in repr
      ensures node !in nodes && forall k | 0 <= k < |nodes| :: nodes[k] != node
    {
    }

    lemma NodeInRepr(k: nat)
      requires Linked() && k < |nodes|
      ensures nodes[k] in repr && (k > 0 ==> nodes[k - 1] in repr)
    {
    }

    /** The links around the place in front of node i, and that no other link starts there. */
    lemma ChainAt(i: nat)
      requires Linked() && i <= |nodes|
      ensures Joined(nodes, i) && (nodes != [] ==> nodes[|nodes| - 1].next == null)
      ensures i > 0 ==> nodes[i - 1].next == NodeAt(i)
      ensures i > 0 ==> forall k | 0 <= k < |nodes| && k != i - 1 :: nodes[k] != nodes[i - 1]
    {
    }

    /** Takes `cur`, the node behind `prev` or the head, out of the chain. */
    method Unlink(prev: QueueNode?, cur: QueueNode, ghost k: nat)
      requires Linked() && k < |nodes| && cur == nodes[k]
      requires prev == if k == 0 then null else nodes[k - 1]
      modifies this, prev
      ensures Linked() && nodes == old(nodes[..k] + nodes[k + 1..])
      ensures jobs == old(jobs[..k] + jobs[k + 1..])
      ensures repr == old(repr) && size == old(size) - 1
    {
      hide Distinct, Chain, Carry;
      ghost var was := nodes;
      NodeInRepr(k);
      CarryRemoved(was, jobs, repr, k);
      DistinctRemoved(was, k);
      ChainAt(k);
      ChainAt(k + 1);
      if prev != null {
        prev.next := cur.next;
      } else {
        head := cur.next;
      }
      size := size - 1;
      nodes := was[..k] + was[k + 1..];
      jobs := jobs[..k] + jobs[k + 1..];
      ChainRemoved(was, k);
    }

    /** The walk of push: `prev` is the last node that the new job does not go ahead of. */
    method FindPlace(job: Job) returns (prev: QueueNode?, ghost i: nat)
      requires Valid()
      ensures i == InsertAt(JobKey, jobs, job)
      ensures prev == if i == 0 then null else nodes[i - 1]
    {
      prev, i := null, 0;
      var cur := head;
      while cur != null
        invariant i <= |nodes| && cur == NodeAt(i)
        invariant prev == if i == 0 then null else nodes[i - 1]
        invariant forall k | 0 <= k < i :: !Before(JobKey(job), JobKey(jobs[k]))
        decreases |nodes| - i
      {
        var insertHere := false;
        if job.info.priority.Value() > cur.job.info.priority.Value() {
          insertHere := true;
        } else if job.info.priority.Value() == cur.job.info.priority.Value() {
          insertHere := job.info.submitTime < cur.job.info.submitTime;
        }
        if insertHere {
          break;
        }
        prev := cur;
        cur := cur.next;
        i := i + 1;
      }
      InsertAtIs(JobKey, jobs, job, i);
    }

    method Push(job: Job)
      requires Valid()
      modifies this, repr
      ensures Valid() && fresh(repr - old(repr))
      ensures jobs == Insert(JobKey, old(jobs), job)
      ensures size == old(size) + 1
    {
      var prev, i := FindPlace(job);
      var node := new QueueNode(job);
      InsertKeepsSorted(JobKey, jobs, job);
      LinkBehind(prev, node, i);
    }

    method TryPop() returns (job: Job?)
      requires Valid()
      modifies this
      ensures Valid() && repr == old(repr)
      ensures old(jobs) == [] ==> job == null && jobs == [] && size == old(size)
      ensures old(jobs) != [] ==>
                job == old(jobs)[0] && jobs == old(jobs)[1..] && size == old(size) - 1
      ensures Holds(old(jobs), Critical) ==> job != null && job.info.priority == Critical
      ensures !Holds(old(jobs), Critical) && Holds(old(jobs), High) ==> job != null && job.info.priority == High
      ensures !Holds(old(jobs), Critical) && !Holds(old(jobs), High) && Holds(old(jobs), Medium) ==>
                job != null && job.info.priority == Medium
      ensures job != null ==>
                forall j | j in old(jobs) && j.info.priority == job.info.priority :: job.info.submitTime <= j.info.submitTime
    {
      if head == null {
        return null;
      }
      HeadIsFirst(jobs);
      var node := head;
      head := head.next;
      size := size - 1;
      nodes, jobs := nodes[1..], jobs[1..];
      job := node.job;
    }

    method TopPriority() returns (p: int)
      requires Valid()
      ensures jobs == [] ==> p == -1
      ensures jobs != [] ==> p == jobs[0].info.priority.Value()
      ensures forall i | 0 <= i < |jobs| :: jobs[i].info.priority.Value() <= p
    {
      p := if head != null then head.job.info.priority.Value() else -1;
      assert forall i | 0 < i < |jobs| :: !Before(JobKey(jobs[i]), JobKey(jobs[0]));
    }

    method Empty() returns (e: bool)
      requires Valid()
      ensures e <==> jobs == []
    {
      e := head == null;
    }

    method TickWaiting()
      requires Valid()
      modifies (set j | j in jobs)`waitTicks, (set j | j in jobs)`agingTicks
      ensures Valid()
      ensures forall j | j in jobs ::
                && j.waitTicks == old(j.waitTicks) + multiset(jobs)[j]
                && j.agingTicks == old(j.agingTicks) + multiset(jobs)[j]
    {
      hide Linked, At, Sorted;
      var cur := head;
      ghost var i: nat, prev: QueueNode? := 0, null;
      AtHead();
      while cur != null
        invariant Linked() && At(i, prev, cur) && i <= |jobs|
        invariant forall j | j in jobs ::
                    && j.waitTicks == old(j.waitTicks) + multiset(jobs[..i])[j]
                    && j.agingTicks == old(j.agingTicks) + multiset(jobs[..i])[j]
        decreases |jobs| - i
      {
        AtNode(i, prev, cur);
        cur.job.waitTicks := cur.job.waitTicks + 1;
        cur.job.agingTicks := cur.job.agingTicks + 1;
        assert jobs[..i + 1] == jobs[..i] + [jobs[i]];
        prev := cur;
        cur := cur.next;
        i := i + 1;
      }
      AtNode(i, prev, cur);
      assert jobs[..i] == jobs;
    }

    /** `cur` is the node after the first `k`, and `prev` the node before it. */
    ghost predicate At(k: nat, prev: QueueNode?, cur: QueueNode?)
      reads this
    {
      k <= |nodes| && cur == NodeAt(k) && prev == if k == 0 then null else nodes[k - 1]
    }

    lemma AtHead()
      requires Linked()
      ensures At(0, null, head)
    {
    }

    lemma AtNode(k: nat, prev: QueueNode?, cur: QueueNode?)
      requires Linked() && At(k, prev, cur)
      ensures k <= size == |nodes| == |jobs| && (cur == null <==> k == |jobs|)
      ensures cur != null ==> cur.job == jobs[k] && At(k + 1, cur, cur.next)
      ensures prev != null ==> prev in repr
    {
    }

    /** One round of drainAged on an aged node: it leaves the list for out[count]. */
    method TakeOut(out: array<Job?>, count: int, prev: QueueNode?, cur: QueueNode, ghost k: nat, ghost got: seq<Job>)
      requires Linked() && At(k, prev, cur)
      requires 0 <= count < out.Length && out[..count] == got
      modifies this, prev, out
      ensures Linked() && repr == old(repr) && size == old(size) - 1
      ensures At(k, prev, old(cur.next))
      ensures jobs == old(jobs)[..k] + old(jobs)[k + 1..]
      ensures out[..count + 1] == got + [cur.job]
    {
      Unlink(prev, cur, k);
      out[count] := cur.job;
    }

    method DrainAged(out: array<Job?>, outSize: int) returns (count: int)
      requires Valid() && outSize <= out.Length
      modifies this, repr, out
      ensures Valid() && repr == old(repr)
      ensures jobs == old(Kept(jobs, AgeTests(jobs), outSize))
      ensures 0 <= count <= out.Length
      ensures out[..count] == old(Taken(jobs, AgeTests(jobs), outSize))
      ensures size == old(size) - count
    {
      hide Draining, Kept, Taken, AgeTests, Linked, At, Sorted;
      count := 0;
      ghost var all, tests := jobs, AgeTests(jobs);
      ghost var k: nat, got: seq<Job> := 0, [];
      DrainStarts(all, tests, outSize);
      var prev: QueueNode? := null;
      var cur := head;
      AtHead();
      while cur != null && count < outSize
        invariant Linked() && At(k, prev, cur) && repr == old(repr)
        invariant 0 <= count == |got| <= out.Length && size == old(size) - count
        invariant Draining(all, tests, outSize, k + count, k, jobs, got)
        invariant out[..count] == got
        decreases |nodes| - k
      {
        AtNode(k, prev, cur);
        DrainHead(all, tests, outSize, k + count, k, jobs, got);
        if cur.job.agingTicks >= AGING_THRESHOLD {
          DrainTakes(all, tests, outSize, k + count, k, jobs, got);
          ghost var rest := jobs[..k] + jobs[k + 1..];
          var aged := cur;
          cur := cur.next;
          TakeOut(out, count, prev, aged, k, got);
          assert jobs == rest;
          count := count + 1;
          got := got + [aged.job];
        } else {
          DrainSkips(all, tests, outSize, k + count, k, jobs, got);
          prev := cur;
          cur := cur.next;
          k := k + 1;
        }
      }
      AtNode(k, prev, cur);
      DrainHead(all, tests, outSize, k + count, k, jobs, got);
      DrainEnds(all, tests, outSize, k + count, k, jobs, got);
      KeptKeepsSorted(JobKey, all, tests, outSize);
    }

    /** Copies the first jobs of the list to buf[from..]. */
    method Snapshot(buf: array<Job?>, from: nat, maxCount: int) returns (count: int)
      requires Valid() && from + (if maxCount < 0 then 0 else maxCount) <= buf.Length
      modifies buf
      ensures count == if maxCount < 0 then 0 else if |jobs| < maxCount then |jobs| else maxCount
      ensures buf[..from] == old(buf[..from])
      ensures buf[from..from + count] == jobs[..count]
    {
      count := 0;
      var cur := head;
      while cur != null && count < maxCount
        invariant 0 <= count <= |nodes| && cur == NodeAt(count)
        invariant count <= if maxCount < 0 then 0 else maxCount
        invariant buf[..from] == old(buf[..from])
        invariant buf[from..from + count] == jobs[..count]
        decreases |nodes| - count
      {
        buf[from + count] := cur.job;
        cur := cur.next;
        count := count + 1;
      }
    }
  }
}
