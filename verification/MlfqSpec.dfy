/**
 The three levels as values: what one pop, one better-candidate query and one atomic aging pass
 mean, independently of how the lists are stored.
 */
module MlfqSpec {
  import opened Jobs
  import opened StableQueue

  const AGED_BUF := 64

  type Queues<T> = qs: seq<seq<T>> | |qs| == MLFQ_LEVELS witness [[], [], []]

  ghost predicate AllSorted<T>(key: T -> Key, qs: Queues<T>) {
    forall l | 0 <= l < MLFQ_LEVELS :: Sorted(key, qs[l])
  }

  /** All queued jobs in the order of level, then place in the level. */
  function Flat<T>(qs: Queues<T>): seq<T> {
    qs[0] + qs[1] + qs[2]
  }

  /** The jobs of the first l levels. */
  function FlatTo<T>(qs: Queues<T>, l: nat): seq<T>
    requires l <= MLFQ_LEVELS
  {
    if l == 0 then [] else FlatTo(qs, l - 1) + qs[l - 1]
  }

  lemma FlatToAll<T>(qs: Queues<T>)
    ensures FlatTo(qs, 0) == [] && FlatTo(qs, MLFQ_LEVELS) == Flat(qs)
  {
    assert FlatTo(qs, 1) == qs[0];
  }

  lemma FlatToNext<T>(qs: Queues<T>, l: nat)
    requires l < MLFQ_LEVELS
    ensures FlatTo(qs, l + 1) == FlatTo(qs, l) + qs[l]
    ensures |FlatTo(qs, l + 1)| == |FlatTo(qs, l)| + |qs[l]|
    ensures forall x | x in qs[l] :: x in Flat(qs)
    ensures multiset(FlatTo(qs, l + 1)) == multiset(FlatTo(qs, l)) + multiset(qs[l])
  {
  }

  /** A prefix of two sequences in a row, taken one after the other. */
  lemma TakeOn<T>(a: seq<T>, b: seq<T>, m: int, n: int, max: int)
    requires m == (if |a| < max then |a| else if max < 0 then 0 else max)
    requires n == (if max - m < 0 then 0 else if |b| < max - m then |b| else max - m)
    ensures 0 <= m <= |a| && 0 <= n <= |b|
    ensures m + n == if |a + b| < max then |a + b| else if max < 0 then 0 else max
    ensures (a + b)[..m + n] == a[..m] + b[..n]
  {
  }

  lemma FlatToPrefix<T>(qs: Queues<T>, l: nat)
    requires l <= MLFQ_LEVELS
    ensures FlatTo(qs, l) <= Flat(qs)
    decreases MLFQ_LEVELS - l
  {
    FlatToAll(qs);
    if l < MLFQ_LEVELS {
      FlatToPrefix(qs, l + 1);
      assert FlatTo(qs, l) <= FlatTo(qs, l + 1);
    }
  }

  /** The first level that is not empty, or MLFQ_LEVELS. */
  function Front<T>(qs: Queues<T>): (l: nat)
    ensures l <= MLFQ_LEVELS
    ensures forall k | 0 <= k < l :: qs[k] == []
    ensures l < MLFQ_LEVELS ==> qs[l] != []
    ensures l == MLFQ_LEVELS <==> Flat(qs) == []
  {
    if qs[0] != [] then 0 else if qs[1] != [] then 1 else if qs[2] != [] then 2 else 3
  }

  function Popped<T>(qs: Queues<T>): Queues<T> {
    var l := Front(qs);
    if l == MLFQ_LEVELS then qs else qs[l := qs[l][1..]]
  }

  /** The jobs that n consecutive pops return. */
  function Pops<T>(qs: Queues<T>, n: nat): seq<T>
    decreases n
  {
    var l := Front(qs);
    if n == 0 || l == MLFQ_LEVELS then [] else [qs[l][0]] + Pops(Popped(qs), n - 1)
  }

  /** A snapshot of the levels shows what the next pops will return, and pops empty the queue
      after exactly as many calls as it holds jobs. */
  lemma {:induction false} PopsAreFlat<T>(qs: Queues<T>, n: nat)
    ensures Pops(qs, n) == Flat(qs)[..if n < |Flat(qs)| then n else |Flat(qs)|]
    decreases n
  {
    hide Flat, Popped;
    if n > 0 && Front(qs) < MLFQ_LEVELS {
      PopsAreFlat(Popped(qs), n - 1);
      PopTakesFirst(qs);
    }
  }

  lemma PopTakesFirst<T>(qs: Queues<T>)
    requires Front(qs) < MLFQ_LEVELS
    ensures Flat(qs) == [qs[Front(qs)][0]] + Flat(Popped(qs))
  {
    var l := Front(qs);
    assert qs[l] == [qs[l][0]] + qs[l][1..];
  }

  /** Some queued job beats a running job of this level and priority. */
  ghost predicate Better<T>(key: T -> Key, qs: Queues<T>, level: int, priority: int) {
    exists l, i | 0 <= l < MLFQ_LEVELS && 0 <= i < |qs[l]| ::
      Beats(l, key(qs[l][i]).priority, level, priority)
  }

  predicate Beats(l: int, p: int, level: int, priority: int) {
    l < level || (l == level && p > priority)
  }

  /** The head test is enough because a level is sorted. */
  lemma HeadTestIsEnough<T>(key: T -> Key, qs: Queues<T>, level: int, priority: int)
    requires 0 <= level <= MLFQ_LEVELS && AllSorted(key, qs)
    ensures Better(key, qs, level, priority) <==>
              || (exists l | 0 <= l < level :: qs[l] != [])
              || (level < MLFQ_LEVELS && qs[level] != [] && key(qs[level][0]).priority > priority)
  {
    if l :| 0 <= l < level && qs[l] != [] {
      assert Beats(l, key(qs[l][0]).priority, level, priority);
    } else if level < MLFQ_LEVELS && qs[level] != [] && key(qs[level][0]).priority > priority {
      assert Beats(level, key(qs[level][0]).priority, level, priority);
    } else if Better(key, qs, level, priority) {
      assert false by {
        PopBeats(key, qs, level, priority);
      }
    }
  }

  /** When there is a better candidate, the job that a pop returns is one. */
  lemma PopBeats<T>(key: T -> Key, qs: Queues<T>, level: int, priority: int)
    requires 0 <= level <= MLFQ_LEVELS && AllSorted(key, qs) && Better(key, qs, level, priority)
    ensures Front(qs) < MLFQ_LEVELS
    ensures Beats(Front(qs), key(qs[Front(qs)][0]).priority, level, priority)
  {
  }

  // ---------------------------------------------------------------- aging

  function MoveUp<T>(key: T -> Key, qs: Queues<T>, lvl: int, aged: seq<bool>): Queues<T>
    requires 1 <= lvl < MLFQ_LEVELS && |aged| == |qs[lvl]|
  {
    qs[lvl := Kept(qs[lvl], aged, AGED_BUF)]
      [lvl - 1 := InsertAll(key, qs[lvl - 1], Taken(qs[lvl], aged, AGED_BUF))]
  }

  /** One pass: level 1 first, then level 2, with the outcomes of the age test at the start. */
  function AgePass<T>(key: T -> Key, qs: Queues<T>, aged1: seq<bool>, aged2: seq<bool>): Queues<T>
    requires |aged1| == |qs[1]| && |aged2| == |qs[2]|
  {
    MoveUp(key, MoveUp(key, qs, 1, aged1), 2, aged2)
  }

  /** The jobs that such a pass promotes, each to the level just above its own. */
  function Promoted<T>(qs: Queues<T>, lvl: int, aged: seq<bool>): seq<T>
    requires 1 <= lvl < MLFQ_LEVELS && |aged| == |qs[lvl]|
  {
    Taken(qs[lvl], aged, AGED_BUF)
  }

  lemma MoveUpMoves<T>(key: T -> Key, qs: Queues<T>, lvl: int, aged: seq<bool>)
    requires 1 <= lvl < MLFQ_LEVELS && |aged| == |qs[lvl]|
    ensures var up, qs' := Promoted(qs, lvl, aged), MoveUp(key, qs, lvl, aged);
            && multiset(qs'[lvl - 1]) == multiset(qs[lvl - 1]) + multiset(up)
            && multiset(qs'[lvl]) + multiset(up) == multiset(qs[lvl])
            && up == Aged(qs[lvl], aged)[..if |Aged(qs[lvl], aged)| < AGED_BUF then |Aged(qs[lvl], aged)| else AGED_BUF]
    ensures AllSorted(key, qs) ==> AllSorted(key, MoveUp(key, qs, lvl, aged))
  {
    DrainSplits(qs[lvl], aged, AGED_BUF);
    DrainTakesFirstAged(qs[lvl], aged, AGED_BUF);
    if AllSorted(key, qs) {
      KeptKeepsSorted(key, qs[lvl], aged, AGED_BUF);
      InsertAllKeepsSorted(key, qs[lvl - 1], Promoted(qs, lvl, aged));
    }
  }

  lemma FlatCounts<T>(qs: Queues<T>)
    ensures multiset(Flat(qs)) == multiset(qs[0]) + multiset(qs[1]) + multiset(qs[2])
  {
  }

  function Members<T(==)>(s: seq<T>): set<T> {
    set x | x in s
  }

  lemma AgePassIs<T>(key: T -> Key, qs: Queues<T>, aged1: seq<bool>, aged2: seq<bool>)
    requires |aged1| == |qs[1]| && |aged2| == |qs[2]|
    ensures var qs', up1, up2 := AgePass(key, qs, aged1, aged2), Promoted(qs, 1, aged1), Promoted(qs, 2, aged2);
            && qs'[0] == InsertAll(key, qs[0], up1)
            && qs'[1] == InsertAll(key, Kept(qs[1], aged1, AGED_BUF), up2)
            && qs'[2] == Kept(qs[2], aged2, AGED_BUF)
            && up1 == Taken(qs[1], aged1, AGED_BUF) && up2 == Taken(qs[2], aged2, AGED_BUF)
  {
    hide Taken, Kept, InsertAll;
  }

  lemma AgePassKeepsOrder<T>(key: T -> Key, qs: Queues<T>, aged1: seq<bool>, aged2: seq<bool>)
    requires |aged1| == |qs[1]| && |aged2| == |qs[2]| && Distinct(qs[1]) && Distinct(qs[2])
    ensures var up1, up2, qs' := Members(Promoted(qs, 1, aged1)), Members(Promoted(qs, 2, aged2)), AgePass(key, qs, aged1, aged2);
            && Without(qs'[0], up1) == Without(qs[0], up1)
            && Without(qs'[1], up2) == Without(Without(qs[1], up1), up2)
            && qs'[2] == Without(qs[2], up2)
  {
    hide Taken, Kept, InsertAll, Distinct, Without, AgePass, Promoted;
    AgePassIs(key, qs, aged1, aged2);
    DrainIsRemoval(qs[1], aged1, AGED_BUF);
    DrainIsRemoval(qs[2], aged2, AGED_BUF);
    var up1, up2 := Promoted(qs, 1, aged1), Promoted(qs, 2, aged2);
    WithoutAllInserted(key, qs[0], up1, Members(up1));
    WithoutAllInserted(key, Kept(qs[1], aged1, AGED_BUF), up2, Members(up2));
  }

  /** The promoted jobs arrive at their new level in the order in which they were drained. */
  lemma AgePassArrives<T>(key: T -> Key, qs: Queues<T>, aged1: seq<bool>, aged2: seq<bool>)
    requires |aged1| == |qs[1]| && |aged2| == |qs[2]| && AllSorted(key, qs)
    ensures var up1, up2, qs' := Promoted(qs, 1, aged1), Promoted(qs, 2, aged2), AgePass(key, qs, aged1, aged2);
            && StableSortOf(key, qs'[0], qs[0] + up1)
            && StableSortOf(key, qs'[1], Kept(qs[1], aged1, AGED_BUF) + up2)
  {
    hide Taken, Kept, InsertAll, AgePass, Promoted, OfKey;
    AgePassIs(key, qs, aged1, aged2);
    KeptKeepsSorted(key, qs[1], aged1, AGED_BUF);
    PushesRefineStableSort(key, qs[0], qs[0], Promoted(qs, 1, aged1));
    PushesRefineStableSort(key, Kept(qs[1], aged1, AGED_BUF), Kept(qs[1], aged1, AGED_BUF), Promoted(qs, 2, aged2));
  }

  /** A pass promotes the first min(64, number aged) aged jobs of levels 1 and 2, in list order,
      each one level and no job twice: what leaves level 2 enters level 1 after level 1 was drained.
      At every level the jobs that are not promoted keep their order. */
  lemma AgePassMoves<T>(key: T -> Key, qs: Queues<T>, aged1: seq<bool>, aged2: seq<bool>)
    requires |aged1| == |qs[1]| && |aged2| == |qs[2]|
    ensures var up1, up2, qs' := Promoted(qs, 1, aged1), Promoted(qs, 2, aged2), AgePass(key, qs, aged1, aged2);
            && multiset(qs'[0]) == multiset(qs[0]) + multiset(up1)
            && multiset(qs'[1]) + multiset(up1) == multiset(qs[1]) + multiset(up2)
            && multiset(qs'[2]) + multiset(up2) == multiset(qs[2])
            && up1 == Aged(qs[1], aged1)[..if |Aged(qs[1], aged1)| < AGED_BUF then |Aged(qs[1], aged1)| else AGED_BUF]
            && up2 == Aged(qs[2], aged2)[..if |Aged(qs[2], aged2)| < AGED_BUF then |Aged(qs[2], aged2)| else AGED_BUF]
            && multiset(Flat(qs')) == multiset(Flat(qs))
    ensures AllSorted(key, qs) ==> AllSorted(key, AgePass(key, qs, aged1, aged2))
    ensures Distinct(qs[1]) && Distinct(qs[2]) ==>
              var up1, up2, qs' := Members(Promoted(qs, 1, aged1)), Members(Promoted(qs, 2, aged2)), AgePass(key, qs, aged1, aged2);
              && Without(qs'[0], up1) == Without(qs[0], up1)
              && Without(qs'[1], up2) == Without(Without(qs[1], up1), up2)
              && qs'[2] == Without(qs[2], up2)
  {
    hide Taken, Kept, Aged, InsertAll, Sorted, Distinct, Without, Members;
    if Distinct(qs[1]) && Distinct(qs[2]) {
      AgePassKeepsOrder(key, qs, aged1, aged2);
    }
    MoveUpMoves(key, qs, 1, aged1);
    MoveUpMoves(key, MoveUp(key, qs, 1, aged1), 2, aged2);
    FlatCounts(qs);
    FlatCounts(AgePass(key, qs, aged1, aged2));
  }
}
