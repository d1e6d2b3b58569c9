/**
 The promise of the aging thread, over whole histories of the queue. Here every queue operation is
 one step: a push, a pop, a complete wait sweep, or a complete aging pass.
 */
module Starvation {
  import opened Jobs
  import opened StableQueue
  import opened MlfqSpec
  import opened Protocol
  import opened WorkerTally
  import opened Ownership

  type Ages = map<JobInfo, nat>

  datatype Queue = Queue(qs: Queues<JobInfo>, ages: Ages)

  datatype Act = Push(x: JobInfo, l: nat) | Pop | WaitSweep | Pass

  function AgeOf(ages: Ages, x: JobInfo): nat {
    if x in ages then ages[x] else 0
  }

  /** The outcomes of the age test for a level. */
  function Flags(ages: Ages, q: seq<JobInfo>): (r: seq<bool>)
    ensures |r| == |q|
    ensures forall i | 0 <= i < |q| :: r[i] <==> AgeOf(ages, q[i]) >= AGING_THRESHOLD
  {
    seq(|q|, i requires 0 <= i < |q| => AgeOf(ages, q[i]) >= AGING_THRESHOLD)
  }

  /** The jobs that a pass moves up from a level. */
  function Up(m: Queue, l: nat): seq<JobInfo>
    requires l < MLFQ_LEVELS
  {
    if l == 0 then [] else Promoted(m.qs, l, Flags(m.ages, m.qs[l]))
  }

  predicate Queued(qs: Queues<JobInfo>, x: JobInfo) {
    x in qs[0] || x in qs[1] || x in qs[2]
  }

  function QueuedSet(qs: Queues<JobInfo>): set<JobInfo> {
    set x | x in Flat(qs)
  }

  /** A push is of a job that is in no level: pushNew of a new job, or the requeue of one that ran. */
  predicate Valid(m: Queue, a: Act) {
    a.Push? ==> a.l < MLFQ_LEVELS && !Queued(m.qs, a.x)
  }

  function Perform(m: Queue, a: Act): Queue
    requires Valid(m, a)
  {
    match a
    case Push(x, l) => Queue(m.qs[l := Insert(InfoKey, m.qs[l], x)], m.ages[x := 0])
    case Pop => m.(qs := Popped(m.qs))
    case WaitSweep =>
      m.(ages := map x | x in m.ages.Keys + QueuedSet(m.qs) :: AgeOf(m.ages, x) + One(Queued(m.qs, x)))
    case Pass =>
      Queue(AgePass(InfoKey, m.qs, Flags(m.ages, m.qs[1]), Flags(m.ages, m.qs[2])),
            map x | x in m.ages.Keys :: if x in Up(m, 1) || x in Up(m, 2) then 0 else m.ages[x])
  }

  /** The level at which a job is queued. */
  function Level(qs: Queues<JobInfo>, x: JobInfo): (l: nat)
    ensures Queued(qs, x) ==> l < MLFQ_LEVELS && x in qs[l]
  {
    if x in qs[0] then 0 else if x in qs[1] then 1 else if x in qs[2] then 2 else 3
  }

  // ---------------------------------------------------------------- one operation

  lemma LevelIs(qs: Queues<JobInfo>, l: nat, x: JobInfo)
    requires InQueues(qs, x) <= 1 && l < MLFQ_LEVELS && x in qs[l]
    ensures Level(qs, x) == l && Queued(qs, x)
  {
  }

  lemma MemberByCount(q: seq<JobInfo>, y: JobInfo)
    ensures y in q <==> multiset(q)[y] > 0
  {
  }

  lemma QueuedByCount(qs: Queues<JobInfo>, x: JobInfo)
    ensures Queued(qs, x) <==> InQueues(qs, x) > 0
  {
  }

  lemma LevelByCount(qs: Queues<JobInfo>, x: JobInfo)
    requires InQueues(qs, x) == 1
    ensures var l := Level(qs, x);
            && l < MLFQ_LEVELS && Queued(qs, x)
            && multiset(qs[0])[x] == One(l == 0) && multiset(qs[1])[x] == One(l == 1) && multiset(qs[2])[x] == One(l == 2)
  {
  }

  /** A pass adds up level by level: what level l gains comes from level l + 1, one place up. */
  lemma PassCounts(m: Queue, x: JobInfo)
    ensures var qs' := Perform(m, Pass).qs;
            && multiset(qs'[0])[x] == multiset(m.qs[0])[x] + multiset(Up(m, 1))[x]
            && multiset(qs'[1])[x] + multiset(Up(m, 1))[x] == multiset(m.qs[1])[x] + multiset(Up(m, 2))[x]
            && multiset(qs'[2])[x] + multiset(Up(m, 2))[x] == multiset(m.qs[2])[x]
            && multiset(Up(m, 1))[x] <= multiset(m.qs[1])[x]
  {
    hide AgePass, AllSorted, Aged, Taken, Kept;
    DrainSplits(m.qs[1], Flags(m.ages, m.qs[1]), AGED_BUF);
    assert multiset(Up(m, 1)) <= multiset(m.qs[1]);
    var a1, a2 := Flags(m.ages, m.qs[1]), Flags(m.ages, m.qs[2]);
    AgePassMoves(InfoKey, m.qs, a1, a2);
    var qs' := AgePass(InfoKey, m.qs, a1, a2);
    assert (multiset(qs'[1]) + multiset(Up(m, 1)))[x] == (multiset(m.qs[1]) + multiset(Up(m, 2)))[x];
    assert (multiset(qs'[2]) + multiset(Up(m, 2)))[x] == multiset(m.qs[2])[x];
  }

  /** Where one aging pass puts a job: one level up if it is taken, else where it was. */
  lemma PassPlaces(m: Queue, x: JobInfo)
    requires InQueues(m.qs, x) == 1
    ensures var qs', l := Perform(m, Pass).qs, Level(m.qs, x);
            && InQueues(qs', x) == 1
            && Level(qs', x) == (if x in Up(m, l) then l - 1 else l)
            && (forall k | 1 <= k < MLFQ_LEVELS && x in Up(m, k) :: k == l)
  {
    hide Perform, Up, Level, InQueues, Queued, One;
    TopStays(m);
    PassCounts(m, x);
    LevelByCount(m.qs, x);
    var qs', l, u1, u2 := Perform(m, Pass).qs, Level(m.qs, x), multiset(Up(m, 1))[x], multiset(Up(m, 2))[x];
    var l' := PassSum(l, u1, u2, multiset(qs'[0])[x], multiset(qs'[1])[x], multiset(qs'[2])[x]);
    LevelFromCount(qs', l', x);
    MemberByCount(Up(m, 1), x);
    MemberByCount(Up(m, 2), x);
  }

  lemma TopStays(m: Queue)
    ensures Up(m, 0) == []
  {
  }

  /** The sums of a pass for a job of level l: u1 and u2 count it among the promoted of levels 1 and
      2, and d0, d1, d2 in the levels afterwards. */
  lemma PassSum(l: nat, u1: nat, u2: nat, d0: nat, d1: nat, d2: nat) returns (l': nat)
    requires l < MLFQ_LEVELS && u1 <= One(l == 1)
    requires d0 == One(l == 0) + u1 && d1 + u1 == One(l == 1) + u2 && d2 + u2 == One(l == 2)
    ensures (u1 > 0 ==> l == 1) && (u2 > 0 ==> l == 2)
    ensures l' == if u1 > 0 || u2 > 0 then l - 1 else l
    ensures d0 == One(l' == 0) && d1 == One(l' == 1) && d2 == One(l' == 2)
  {
    l' := if u1 > 0 || u2 > 0 then l - 1 else l;
  }

  lemma LevelFromCount(qs: Queues<JobInfo>, l: nat, x: JobInfo)
    requires l < MLFQ_LEVELS
    requires multiset(qs[0])[x] == One(l == 0) && multiset(qs[1])[x] == One(l == 1) && multiset(qs[2])[x] == One(l == 2)
    ensures InQueues(qs, x) == 1 && Level(qs, x) == l
  {
  }

  /** Only a sweep ages, only a queued job ages, and by one; a push and a promotion start the age over. */
  lemma OnlySweepsAge(m: Queue, a: Act, x: JobInfo)
    requires Valid(m, a)
    ensures var was, now := AgeOf(m.ages, x), AgeOf(Perform(m, a).ages, x);
            && (now > was <==> a.WaitSweep? && Queued(m.qs, x)) && now <= was + 1
            && (now < was ==> (a.Push? && a.x == x) || (a.Pass? && (x in Up(m, 1) || x in Up(m, 2))))
            && ((a.Push? && a.x == x) || (a.Pass? && (x in Up(m, 1) || x in Up(m, 2))) ==> now == 0)
  {
    hide Insert, AgePass, Up;
    assert x in QueuedSet(m.qs) <==> Queued(m.qs, x);
  }

  /** While a job stays queued, no operation of anyone moves it down a level, and at its level it
      ages with every sweep. */
  lemma ActMoves(m: Queue, a: Act, x: JobInfo)
    requires Valid(m, a) && InQueues(m.qs, x) == 1 && Queued(Perform(m, a).qs, x)
    ensures var m' := Perform(m, a);
            && InQueues(m'.qs, x) == 1
            && Level(m'.qs, x) <= Level(m.qs, x)
            && (Level(m'.qs, x) == Level(m.qs, x) ==> AgeOf(m'.ages, x) >= AgeOf(m.ages, x) + One(a.WaitSweep?))
  {
    hide Insert, InQueues, Popped, AgePass, Up, Front;
    QueuedByCount(m.qs, x);
    QueuedByCount(Perform(m, a).qs, x);
    LevelIs(m.qs, Level(m.qs, x), x);
    match a {
      case Push(y, l) =>
        InsertCounts(m.qs, l, y, x);
        LevelIs(Perform(m, a).qs, Level(m.qs, x), x);
      case Pop =>
        PopCounts(m.qs, x);
        LevelIs(m.qs, Level(Popped(m.qs), x), x);
      case WaitSweep =>
        assert x in QueuedSet(m.qs);
      case Pass =>
        PassPlaces(m, x);
    }
  }

  // ---------------------------------------------------------------- histories

  /** The acts are valid one after the other, and the job is queued before, between and after them. */
  predicate Stays(m: Queue, acts: seq<Act>, x: JobInfo)
    decreases |acts|
  {
    && Queued(m.qs, x)
    && (acts != [] ==> Valid(m, acts[0]) && Stays(Perform(m, acts[0]), acts[1..], x))
  }

  function After(m: Queue, acts: seq<Act>, x: JobInfo): (n: Queue)
    requires Stays(m, acts, x)
    ensures Queued(n.qs, x)
    decreases |acts|
  {
    if acts == [] then m else After(Perform(m, acts[0]), acts[1..], x)
  }

  function SweepCount(acts: seq<Act>): nat {
    if acts == [] then 0 else One(acts[0].WaitSweep?) + SweepCount(acts[1..])
  }

  lemma {:induction false} StayingAges(m: Queue, acts: seq<Act>, x: JobInfo)
    requires InQueues(m.qs, x) == 1 && Stays(m, acts, x)
    ensures var n := After(m, acts, x);
            && InQueues(n.qs, x) == 1 && Queued(n.qs, x)
            && Level(n.qs, x) <= Level(m.qs, x)
            && (Level(n.qs, x) == Level(m.qs, x) ==> AgeOf(n.ages, x) >= AgeOf(m.ages, x) + SweepCount(acts))
    decreases |acts|
  {
    hide Perform, InQueues, Queued, Level, AgeOf, Valid;
    if acts != [] {
      var m' := Perform(m, acts[0]);
      assert Queued(m'.qs, x);
      ActMoves(m, acts[0], x);
      StayingAges(m', acts[1..], x);
    }
  }

  /** The number of jobs that the next pass finds aged at a level. */
  function AgedAt(m: Queue, l: nat): nat
    requires l < MLFQ_LEVELS
  {
    |Aged(m.qs[l], Flags(m.ages, m.qs[l]))|
  }

  /** An aged job of a level where the buffer has room for all of them is promoted. */
  lemma AgedGoesUp(m: Queue, x: JobInfo)
    requires InQueues(m.qs, x) == 1 && AgeOf(m.ages, x) >= AGING_THRESHOLD
    requires 1 <= Level(m.qs, x) < MLFQ_LEVELS && AgedAt(m, Level(m.qs, x)) <= AGED_BUF
    ensures Level(Perform(m, Pass).qs, x) == Level(m.qs, x) - 1
  {
    hide Perform, InQueues;
    var l := Level(m.qs, x);
    var flags := Flags(m.ages, m.qs[l]);
    QueuedByCount(m.qs, x);
    var i :| 0 <= i < |m.qs[l]| && m.qs[l][i] == x;
    AgedHolds(m.qs[l], flags, i);
    DrainTakesFirstAged(m.qs[l], flags, AGED_BUF);
    PassPlaces(m, x);
  }

  /** The aged jobs of a level in front of place i. */
  function AgedAhead(m: Queue, l: nat, i: nat): nat
    requires l < MLFQ_LEVELS && i <= |m.qs[l]|
  {
    |Aged(m.qs[l][..i], Flags(m.ages, m.qs[l])[..i])|
  }

  /** Old enough, with fewer than 64 aged jobs in front of it: what can be seen before the pass. */
  predicate Due(m: Queue, l: nat, i: nat)
    requires l < MLFQ_LEVELS && i < |m.qs[l]|
  {
    l >= 1 && AgeOf(m.ages, m.qs[l][i]) >= AGING_THRESHOLD && AgedAhead(m, l, i) < AGED_BUF
  }

  lemma {:induction false} TakenIff(q: seq<JobInfo>, flags: seq<bool>, cap: int, i: nat)
    requires |q| == |flags| && i < |q| && 0 <= cap && multiset(q)[q[i]] == 1
    ensures q[i] in Taken(q, flags, cap) <==> flags[i] && |Aged(q[..i], flags[..i])| < cap
  {
    if cap > 0 {
      var cap' := if flags[0] then cap - 1 else cap;
      assert q == [q[0]] + q[1..];
      if i == 0 {
        assert q[0] !in multiset(q[1..]);
        TakenAreMembers(q[1..], flags[1..], cap');
      } else {
        assert q[i] == q[1..][i - 1];
        assert q[1..][i - 1] in multiset(q[1..]);
        TakenIff(q[1..], flags[1..], cap', i - 1);
        assert q[..i][1..] == q[1..][..i - 1] && flags[..i][1..] == flags[1..][..i - 1];
      }
    }
  }

  lemma UpIffDue(m: Queue, l: nat, i: nat)
    requires l < MLFQ_LEVELS && i < |m.qs[l]| && InQueues(m.qs, m.qs[l][i]) == 1
    ensures m.qs[l][i] in Up(m, l) <==> Due(m, l, i)
  {
    hide Taken, Aged;
    LevelWithin(m.qs, l, m.qs[l][i]);
    assert m.qs[l][i] in multiset(m.qs[l]);
    if l >= 1 {
      TakenIff(m.qs[l], Flags(m.ages, m.qs[l]), AGED_BUF, i);
    }
  }

  /** Where a pass takes the job at place i of level l: one level up exactly if it is due, and then it
      starts over at age 0. So it reaches level 0 exactly if it is there or is due at level 1; an aged
      job of level 2 needs two passes and has to age anew between them. */
  lemma OnePassReachesTop(m: Queue, l: nat, i: nat)
    requires l < MLFQ_LEVELS && i < |m.qs[l]| && InQueues(m.qs, m.qs[l][i]) == 1
    ensures var x, m' := m.qs[l][i], Perform(m, Pass);
            && Level(m'.qs, x) == (if Due(m, l, i) then l - 1 else l)
            && AgeOf(m'.ages, x) == (if Due(m, l, i) then 0 else AgeOf(m.ages, x))
            && (Level(m'.qs, x) == 0 <==> l == 0 || (l == 1 && Due(m, l, i)))
  {
    hide Up, InQueues, AgePass, Level, Queued, Due;
    var x := m.qs[l][i];
    TopStays(m);
    UpIffDue(m, l, i);
    LevelIs(m.qs, l, x);
    PassPlaces(m, x);
  }

  lemma BottomIsNotLifted(x: JobInfo)
    ensures var m := Queue([[], [], [x]], map[x := AGING_THRESHOLD]);
            && Queued(m.qs, x) && Level(m.qs, x) == 2
            && Level(Perform(m, Pass).qs, x) == 1 && AgeOf(Perform(m, Pass).ages, x) == 0
  {
    var m := Queue([[], [], [x]], map[x := AGING_THRESHOLD]);
    hide Perform;
    assert multiset(m.qs[0])[x] == multiset(m.qs[1])[x] == 0 && multiset(m.qs[2])[x] == 1;
    AgedAreAged(m.qs[2], Flags(m.ages, m.qs[2]));
    assert |multiset(Aged(m.qs[2], Flags(m.ages, m.qs[2])))| <= |multiset(m.qs[2])| == 1;
    AgedGoesUp(m, x);
    OnePassReachesTop(m, 2, 0);
    PassPlaces(m, x);
  }

  /** The bound of 64 matters: of more aged jobs at a level, some stay there. */
  lemma CrowdedPass(m: Queue, l: nat)
    requires (forall y: JobInfo :: InQueues(m.qs, y) <= 1) && 1 <= l < MLFQ_LEVELS && AgedAt(m, l) > AGED_BUF
    ensures exists x | x in m.qs[l] :: AgeOf(m.ages, x) >= AGING_THRESHOLD && Level(Perform(m, Pass).qs, x) == l
  {
    hide Perform, InQueues, Aged, Flags;
    var flags := Flags(m.ages, m.qs[l]);
    var aged := Aged(m.qs[l], flags);
    var x := aged[AGED_BUF];
    AgedAreAged(m.qs[l], flags);
    DrainTakesFirstAged(m.qs[l], flags, AGED_BUF);
    assert InQueues(m.qs, x) <= 1;
    LevelWithin(m.qs, l, x);
    assert x !in Up(m, l) by {
      assert multiset(aged)[x] <= 1;
      assert aged == aged[..AGED_BUF] + aged[AGED_BUF..];
      assert x in multiset(aged[AGED_BUF..]);
      assert x !in multiset(aged[..AGED_BUF]);
    }
    assert x in aged;
    assert x in m.qs[l] && AgeOf(m.ages, x) >= AGING_THRESHOLD;
    QueuedByCount(m.qs, x);
    LevelIs(m.qs, l, x);
    PassPlaces(m, x);
    assert Level(Perform(m, Pass).qs, x) == l;
  }

  lemma LevelWithin(qs: Queues<JobInfo>, l: nat, x: JobInfo)
    requires l < MLFQ_LEVELS
    ensures multiset(qs[l])[x] <= InQueues(qs, x)
  {
  }

  lemma {:induction false} AgedAreAged(q: seq<JobInfo>, flags: seq<bool>)
    requires |q| == |flags|
    ensures multiset(Aged(q, flags)) <= multiset(q)
    ensures forall x | x in Aged(q, flags) :: exists i :: 0 <= i < |q| && q[i] == x && flags[i]
  {
    if q != [] {
      AgedAreAged(q[1..], flags[1..]);
      assert q == [q[0]] + q[1..];
      forall x | x in Aged(q, flags) ensures exists i :: 0 <= i < |q| && q[i] == x && flags[i] {
        if !(x == q[0] && flags[0]) {
          var i :| 0 <= i < |q[1..]| && q[1..][i] == x && flags[1..][i];
          assert q[i + 1] == x && flags[i + 1];
        }
      }
    }
  }

  /** A stretch of history with at least 15 complete sweeps and then an aging pass that finds at
      most 64 aged jobs at the level of x, if it drains that level; x is queued all the time. */
  predicate Segment(m: Queue, acts: seq<Act>, x: JobInfo) {
    && Stays(m, acts, x) && SweepCount(acts) >= AGING_THRESHOLD
    && var n := After(m, acts, x);
    Level(n.qs, x) >= 1 ==> AgedAt(n, Level(n.qs, x)) <= AGED_BUF
  }

  function AfterSegment(m: Queue, acts: seq<Act>, x: JobInfo): Queue
    requires Segment(m, acts, x)
  {
    Perform(After(m, acts, x), Pass)
  }

  lemma SegmentClimbs(m: Queue, acts: seq<Act>, x: JobInfo)
    requires InQueues(m.qs, x) == 1 && Segment(m, acts, x)
    ensures var n := AfterSegment(m, acts, x);
            && InQueues(n.qs, x) == 1
            && Level(n.qs, x) <= (if Level(m.qs, x) == 0 then 0 else Level(m.qs, x) - 1)
  {
    hide Perform, InQueues, Level, AgedAt, Stays, After, Up;
    StayingAges(m, acts, x);
    var n := After(m, acts, x);
    PassPlaces(n, x);
    if Level(n.qs, x) == Level(m.qs, x) && Level(n.qs, x) >= 1 {
      AgedGoesUp(n, x);
    }
  }

  /** Segments one after the other; what happens between two of them belongs to the second. */
  predicate Segments(m: Queue, segs: seq<seq<Act>>, x: JobInfo)
    decreases |segs|
  {
    segs != [] ==> Segment(m, segs[0], x) && Segments(AfterSegment(m, segs[0], x), segs[1..], x)
  }

  function AfterSegments(m: Queue, segs: seq<seq<Act>>, x: JobInfo): Queue
    requires Segments(m, segs, x)
    decreases |segs|
  {
    if segs == [] then m else AfterSegments(AfterSegment(m, segs[0], x), segs[1..], x)
  }

  lemma {:induction false} SegmentsClimb(m: Queue, segs: seq<seq<Act>>, x: JobInfo)
    requires InQueues(m.qs, x) == 1 && Segments(m, segs, x)
    ensures var n := AfterSegments(m, segs, x);
            && InQueues(n.qs, x) == 1
            && Level(n.qs, x) <= (if Level(m.qs, x) < |segs| then 0 else Level(m.qs, x) - |segs|)
    decreases |segs|
  {
    hide InQueues, Level, Segment, AfterSegment;
    if segs != [] {
      SegmentClimbs(m, segs[0], x);
      SegmentsClimb(AfterSegment(m, segs[0], x), segs[1..], x);
    }
  }

  /** A job that stays queued through k such segments, and through any history after them, is at
      most at level max(0, l - k), whatever other jobs are pushed, popped and promoted meanwhile. */
  lemma AntiStarvation(m: Queue, segs: seq<seq<Act>>, rest: seq<Act>, x: JobInfo)
    requires InQueues(m.qs, x) == 1 && Segments(m, segs, x) && Stays(AfterSegments(m, segs, x), rest, x)
    ensures var l, l' := Level(m.qs, x), Level(After(AfterSegments(m, segs, x), rest, x).qs, x);
            l' <= if l < |segs| then 0 else l - |segs|
  {
    hide InQueues, Level, Segments, AfterSegments, Stays, After;
    SegmentsClimb(m, segs, x);
    StayingAges(AfterSegments(m, segs, x), rest, x);
  }
}
