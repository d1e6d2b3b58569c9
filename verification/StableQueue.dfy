/**
 The abstract value of one queue level, and the three operations that change it: ordered
 insertion, removal of the head, and removal of the first aged entries.

 The reference definition is StableSortOf, which mentions neither insertion nor positions:
 a level is sorted, and for every key it holds the jobs of that key in arrival order.
 */
module StableQueue {

  datatype Key = Key(priority: int, submitTime: int)

  /** Strictly ahead in a level: higher priority, or the same priority and submitted earlier. */
  predicate Before(a: Key, b: Key) {
    a.priority > b.priority || (a.priority == b.priority && a.submitTime < b.submitTime)
  }

  ghost predicate Sorted<T>(key: T -> Key, s: seq<T>) {
    forall i, j | 0 <= i < j < |s| :: !Before(key(s[j]), key(s[i]))
  }

  ghost predicate Distinct<T>(s: seq<T>) {
    forall i, j | 0 <= i < j < |s| :: s[i] != s[j]
  }

  lemma DistinctInsert<T>(s: seq<T>, i: nat, x: T)
    requires Distinct(s) && i <= |s| && x !in s
    ensures Distinct(s[..i] + [x] + s[i..])
  {
  }

  /** The elements of key k, in order. */
  ghost function OfKey<T>(key: T -> Key, s: seq<T>, k: Key): seq<T> {
    if s == [] then []
    else (if key(s[0]) == k then [s[0]] else []) + OfKey(key, s[1..], k)
  }

  ghost predicate StableSortOf<T>(key: T -> Key, s: seq<T>, arrivals: seq<T>) {
    && Sorted(key, s)
    && forall k: Key :: OfKey(key, s, k) == OfKey(key, arrivals, k)
  }

  /** Where push stops walking: the first entry that the new one goes ahead of. */
  function InsertAt<T>(key: T -> Key, s: seq<T>, x: T): (p: nat)
    ensures p <= |s|
    ensures forall i | 0 <= i < p :: !Before(key(x), key(s[i]))
    ensures p < |s| ==> Before(key(x), key(s[p]))
  {
    if s == [] || Before(key(x), key(s[0])) then 0
    else 1 + InsertAt(key, s[1..], x)
  }

  function Insert<T>(key: T -> Key, s: seq<T>, x: T): (r: seq<T>)
    ensures |r| == |s| + 1
    ensures multiset(r) == multiset(s) + multiset{x}
  {
    var p := InsertAt(key, s, x);
    assert s == s[..p] + s[p..];
    s[..p] + [x] + s[p..]
  }

  function InsertAll<T>(key: T -> Key, s: seq<T>, xs: seq<T>): (r: seq<T>)
    ensures multiset(r) == multiset(s) + multiset(xs)
    decreases |xs|
  {
    if xs == [] then s
    else
      assert xs == [xs[0]] + xs[1..];
      InsertAll(key, Insert(key, s, xs[0]), xs[1..])
  }

  /** All aged entries, in list order. */
  function Aged<T>(s: seq<T>, aged: seq<bool>): seq<T>
    requires |s| == |aged|
  {
    if s == [] then []
    else (if aged[0] then [s[0]] else []) + Aged(s[1..], aged[1..])
  }

  /** What a drain with room for `cap` jobs takes out. */
  function Taken<T>(s: seq<T>, aged: seq<bool>, cap: int): (r: seq<T>)
    requires |s| == |aged|
  {
    if s == [] || cap <= 0 then []
    else if aged[0] then [s[0]] + Taken(s[1..], aged[1..], cap - 1)
    else Taken(s[1..], aged[1..], cap)
  }

  /** What the same drain leaves in the list. */
  function Kept<T>(s: seq<T>, aged: seq<bool>, cap: int): (r: seq<T>)
    requires |s| == |aged|
  {
    if s == [] then []
    else if cap <= 0 then s
    else if aged[0] then Kept(s[1..], aged[1..], cap - 1)
    else [s[0]] + Kept(s[1..], aged[1..], cap)
  }

  ghost function Without<T>(s: seq<T>, gone: set<T>): seq<T> {
    if s == [] then []
    else (if s[0] in gone then [] else [s[0]]) + Without(s[1..], gone)
  }

  // ---------------------------------------------------------------- insertion

  lemma {:induction false} InsertAtIs<T>(key: T -> Key, s: seq<T>, x: T, p: nat)
    requires p <= |s|
    requires forall i | 0 <= i < p :: !Before(key(x), key(s[i]))
    requires p < |s| ==> Before(key(x), key(s[p]))
    ensures InsertAt(key, s, x) == p
  {
  }

  lemma InsertKeepsSorted<T>(key: T -> Key, s: seq<T>, x: T)
    requires Sorted(key, s)
    ensures Sorted(key, Insert(key, s, x))
  {
  }

  lemma {:induction false} OfKeyConcat<T>(key: T -> Key, a: seq<T>, b: seq<T>, k: Key)
    ensures OfKey(key, a + b, k) == OfKey(key, a, k) + OfKey(key, b, k)
  {
    if a == [] {
      assert a + b == b;
    } else {
      OfKeyConcat(key, a[1..], b, k);
      assert (a + b)[1..] == a[1..] + b;
    }
  }

  lemma {:induction false} OfKeyNone<T>(key: T -> Key, s: seq<T>, k: Key)
    requires forall i | 0 <= i < |s| :: key(s[i]) != k
    ensures OfKey(key, s, k) == []
  {
    if s != [] {
      OfKeyNone(key, s[1..], k);
    }
  }

  lemma HeadHasItsKey<T>(key: T -> Key, s: seq<T>)
    ensures s != [] ==> OfKey(key, s, key(s[0])) != []
  {
  }

  /** A new arrival goes behind everything of its own key. */
  lemma InsertOfKey<T>(key: T -> Key, s: seq<T>, x: T, k: Key)
    requires Sorted(key, s)
    ensures OfKey(key, Insert(key, s, x), k) == OfKey(key, s, k) + OfKey(key, [x], k)
  {
    hide OfKey, Sorted, InsertAt;
    var p := InsertAt(key, s, x);
    assert s == s[..p] + s[p..];
    if key(x) == k {
      BehindInsertion(key, s, x);
      OfKeyNone(key, s[p..], k);
    }
    OfKeyInserted(key, s[..p], x, s[p..], k);
  }

  lemma OfKeyInserted<T>(key: T -> Key, a: seq<T>, x: T, b: seq<T>, k: Key)
    requires key(x) == k ==> OfKey(key, b, k) == []
    ensures OfKey(key, a + [x] + b, k) == OfKey(key, a + b, k) + OfKey(key, [x], k)
  {
    OfKeyOfParts(key, a, [x], b, k);
    OfKeyConcat(key, a, b, k);
    var fa, fx, fb := OfKey(key, a, k), OfKey(key, [x], k), OfKey(key, b, k);
    if key(x) == k {
      assert fa + fx + [] == fa + [] + fx;
    } else {
      assert fa + [] + fb == fa + fb + [];
    }
  }

  lemma OfKeyOfParts<T>(key: T -> Key, a: seq<T>, b: seq<T>, c: seq<T>, k: Key)
    ensures OfKey(key, a + b + c, k) == OfKey(key, a, k) + OfKey(key, b, k) + OfKey(key, c, k)
  {
    OfKeyConcat(key, a + b, c, k);
    OfKeyConcat(key, a, b, k);
  }

  lemma BehindInsertion<T>(key: T -> Key, s: seq<T>, x: T)
    requires Sorted(key, s)
    ensures forall j | InsertAt(key, s, x) <= j < |s| :: Before(key(x), key(s[j]))
  {
  }

  lemma PushRefinesStableSort<T>(key: T -> Key, s: seq<T>, arrivals: seq<T>, x: T)
    requires StableSortOf(key, s, arrivals)
    ensures StableSortOf(key, Insert(key, s, x), arrivals + [x])
  {
    InsertKeepsSorted(key, s, x);
    forall k: Key ensures OfKey(key, Insert(key, s, x), k) == OfKey(key, arrivals + [x], k) {
      InsertOfKey(key, s, x, k);
      OfKeyConcat(key, arrivals, [x], k);
    }
  }

  /** Jobs pushed one after the other arrive in that order. */
  lemma {:induction false} PushesRefineStableSort<T>(key: T -> Key, s: seq<T>, arrivals: seq<T>, xs: seq<T>)
    requires StableSortOf(key, s, arrivals)
    ensures StableSortOf(key, InsertAll(key, s, xs), arrivals + xs)
    decreases |xs|
  {
    hide StableSortOf, Insert;
    if xs == [] {
      assert arrivals + xs == arrivals;
    } else {
      PushRefinesStableSort(key, s, arrivals, xs[0]);
      PushesRefineStableSort(key, Insert(key, s, xs[0]), arrivals + [xs[0]], xs[1..]);
      assert arrivals + xs == arrivals + [xs[0]] + xs[1..];
    }
  }

  /** The reference definition determines the list. */
  lemma {:induction false} StableSortUnique<T>(key: T -> Key, s: seq<T>, t: seq<T>)
    requires Sorted(key, s) && Sorted(key, t)
    requires forall k: Key :: OfKey(key, s, k) == OfKey(key, t, k)
    ensures s == t
  {
    HeadHasItsKey(key, s);
    HeadHasItsKey(key, t);
    if s != [] && t != [] {
      HeadNotAfter(key, s, t);
      HeadNotAfter(key, t, s);
      var k0 := key(s[0]);
      assert key(t[0]) == k0;
      assert OfKey(key, s, k0)[0] == s[0] && OfKey(key, t, k0)[0] == t[0];
      forall k: Key ensures OfKey(key, s[1..], k) == OfKey(key, t[1..], k) {
        assert OfKey(key, s, k) == OfKey(key, t, k);
        if k == k0 {
          assert OfKey(key, s, k)[1..] == OfKey(key, s[1..], k);
          assert OfKey(key, t, k)[1..] == OfKey(key, t[1..], k);
        } else {
          assert OfKey(key, s, k) == OfKey(key, s[1..], k);
          assert OfKey(key, t, k) == OfKey(key, t[1..], k);
        }
      }
      StableSortUnique(key, s[1..], t[1..]);
      assert s == [s[0]] + s[1..] && t == [t[0]] + t[1..];
    }
  }

  lemma HeadNotAfter<T>(key: T -> Key, s: seq<T>, t: seq<T>)
    requires s != [] && t != [] && Sorted(key, t)
    requires OfKey(key, s, key(s[0])) == OfKey(key, t, key(s[0]))
    ensures !Before(key(s[0]), key(t[0]))
  {
  }

  /** Pushes of jobs with different keys commute. */
  lemma PushesCommute<T>(key: T -> Key, s: seq<T>, x: T, y: T)
    requires Sorted(key, s) && key(x) != key(y)
    ensures Insert(key, Insert(key, s, x), y) == Insert(key, Insert(key, s, y), x)
  {
    var xy, yx := Insert(key, Insert(key, s, x), y), Insert(key, Insert(key, s, y), x);
    assert StableSortOf(key, s, s);
    PushRefinesStableSort(key, s, s, x);
    PushRefinesStableSort(key, Insert(key, s, x), s + [x], y);
    PushRefinesStableSort(key, s, s, y);
    PushRefinesStableSort(key, Insert(key, s, y), s + [y], x);
    forall k: Key ensures OfKey(key, xy, k) == OfKey(key, yx, k) {
      OfKeyOfParts(key, s, [x], [y], k);
      OfKeyOfParts(key, s, [y], [x], k);
    }
    StableSortUnique(key, xy, yx);
  }

  // ---------------------------------------------------------------- ties

  /** A push puts x behind every entry of its own priority. */
  ghost predicate BehindPeers<T>(key: T -> Key, s: seq<T>, x: T) {
    forall i | 0 <= i < |s| && key(s[i]).priority == key(x).priority :: i < InsertAt(key, s, x)
  }

  /** A head that is popped and pushed back goes behind the other jobs of its priority, as a
      round-robin would have it, exactly if none of them was submitted later than it. */
  lemma TiesRotateIff<T>(key: T -> Key, s: seq<T>)
    requires s != [] && Sorted(key, s)
    ensures BehindPeers(key, s[1..], s[0]) <==>
              forall i | 0 < i < |s| && key(s[i]).priority == key(s[0]).priority ::
                key(s[i]).submitTime <= key(s[0]).submitTime
  {
  }

  /** Two jobs of one priority, submitted at different times, do not take turns. */
  lemma TiesNeedNotRotate()
    ensures var s := [Key(2, 10), Key(2, 11)];
            Insert(k => k, s[1..], s[0]) == s && !BehindPeers(k => k, s[1..], s[0])
  {
  }

  lemma {:induction false} InsertAllKeepsSorted<T>(key: T -> Key, s: seq<T>, xs: seq<T>)
    requires Sorted(key, s)
    ensures Sorted(key, InsertAll(key, s, xs))
    decreases |xs|
  {
    if xs != [] {
      InsertKeepsSorted(key, s, xs[0]);
      InsertAllKeepsSorted(key, Insert(key, s, xs[0]), xs[1..]);
    }
  }

  lemma InsertAllNone<T>(key: T -> Key, s: seq<T>)
    ensures InsertAll(key, s, []) == s
  {
  }

  lemma {:induction false} InsertAllAppend<T>(key: T -> Key, s: seq<T>, xs: seq<T>, x: T)
    ensures InsertAll(key, s, xs + [x]) == Insert(key, InsertAll(key, s, xs), x)
    decreases |xs|
  {
    if xs == [] {
      assert xs + [x] == [x];
    } else {
      assert (xs + [x])[0] == xs[0] && (xs + [x])[1..] == xs[1..] + [x];
      InsertAllAppend(key, Insert(key, s, xs[0]), xs[1..], x);
    }
  }

  lemma InsertAllNext<T>(key: T -> Key, s: seq<T>, xs: seq<T>, i: nat)
    requires i < |xs|
    ensures InsertAll(key, s, xs[..i + 1]) == Insert(key, InsertAll(key, s, xs[..i]), xs[i])
    ensures forall x | x in xs[..i + 1] :: x in xs[..i] || x == xs[i]
  {
    assert xs[..i + 1] == xs[..i] + [xs[i]];
    InsertAllAppend(key, s, xs[..i], xs[i]);
  }

  // ---------------------------------------------------------------- draining

  lemma {:induction false} DrainSplits<T>(s: seq<T>, aged: seq<bool>, cap: int)
    requires |s| == |aged|
    ensures multiset(Taken(s, aged, cap)) + multiset(Kept(s, aged, cap)) == multiset(s)
    ensures |Taken(s, aged, cap)| + |Kept(s, aged, cap)| == |s|
  {
    if s == [] || cap <= 0 {
    } else {
      assert s == [s[0]] + s[1..];
      DrainSplits(s[1..], aged[1..], if aged[0] then cap - 1 else cap);
    }
  }

  /** A drain takes exactly the first min(cap, number aged) aged entries, in list order. */
  lemma {:induction false} DrainTakesFirstAged<T>(s: seq<T>, aged: seq<bool>, cap: int)
    requires |s| == |aged| && 0 <= cap
    ensures var all := Aged(s, aged);
            Taken(s, aged, cap) == all[..if |all| < cap then |all| else cap]
  {
    if s == [] || cap == 0 {
    } else {
      DrainTakesFirstAged(s[1..], aged[1..], if aged[0] then cap - 1 else cap);
    }
  }

  lemma {:induction false} AgedHolds<T>(s: seq<T>, aged: seq<bool>, i: nat)
    requires |s| == |aged| && i < |s| && aged[i]
    ensures s[i] in Aged(s, aged)
  {
    if i > 0 {
      AgedHolds(s[1..], aged[1..], i - 1);
    }
  }

  lemma {:induction false} DrainOnlyAged<T>(s: seq<T>, aged: seq<bool>, cap: int, x: T)
    requires |s| == |aged| && x in Taken(s, aged, cap)
    ensures exists i :: 0 <= i < |s| && s[i] == x && aged[i]
  {
    if aged[0] && x == s[0] {
    } else {
      DrainOnlyAged(s[1..], aged[1..], if aged[0] then cap - 1 else cap, x);
      var i :| 0 <= i < |s[1..]| && s[1..][i] == x && aged[1..][i];
      assert s[i + 1] == x && aged[i + 1];
    }
  }

  /** What is left keeps its order: it is a subsequence of the old list. */
  lemma {:induction false} KeptKeepsSorted<T>(key: T -> Key, s: seq<T>, aged: seq<bool>, cap: int)
    requires |s| == |aged| && Sorted(key, s)
    ensures Sorted(key, Kept(s, aged, cap))
  {
    if s == [] || cap <= 0 {
    } else {
      var cap' := if aged[0] then cap - 1 else cap;
      KeptKeepsSorted(key, s[1..], aged[1..], cap');
      DrainSplits(s[1..], aged[1..], cap');
      var rest := Kept(s[1..], aged[1..], cap');
      forall j | 0 <= j < |rest| ensures !Before(key(rest[j]), key(s[0])) {
        assert rest[j] in multiset(rest);
        assert rest[j] in multiset(s[1..]);
      }
    }
  }

  /** The state of a drain under way: `i` entries examined, the first `k` of `now` kept, `out`
      taken. What is still to come is the drain of the rest with the room that is left. */
  ghost predicate Draining<T>(all: seq<T>, aged: seq<bool>, cap: int, i: nat, k: nat, now: seq<T>, out: seq<T>)
    requires |all| == |aged|
  {
    && i <= |all| && k <= |now| && i == k + |out| && now[k..] == all[i..]
    && Kept(all, aged, cap) == now[..k] + Kept(all[i..], aged[i..], cap - |out|)
    && Taken(all, aged, cap) == out + Taken(all[i..], aged[i..], cap - |out|)
  }

  lemma DrainStarts<T>(all: seq<T>, aged: seq<bool>, cap: int)
    requires |all| == |aged|
    ensures Draining(all, aged, cap, 0, 0, all, [])
  {
  }

  lemma DrainHead<T>(all: seq<T>, aged: seq<bool>, cap: int, i: nat, k: nat, now: seq<T>, out: seq<T>)
    requires |all| == |aged| && Draining(all, aged, cap, i, k, now, out)
    ensures k <= |now| && |now| - k == |all| - i && (k < |now| ==> now[k] == all[i])
  {
  }

  lemma DrainTakes<T>(all: seq<T>, aged: seq<bool>, cap: int, i: nat, k: nat, now: seq<T>, out: seq<T>)
    requires |all| == |aged| && Draining(all, aged, cap, i, k, now, out)
    requires i < |all| && |out| < cap && aged[i]
    ensures Draining(all, aged, cap, i + 1, k, now[..k] + now[k + 1..], out + [all[i]])
  {
  }

  lemma DrainSkips<T>(all: seq<T>, aged: seq<bool>, cap: int, i: nat, k: nat, now: seq<T>, out: seq<T>)
    requires |all| == |aged| && Draining(all, aged, cap, i, k, now, out)
    requires i < |all| && |out| < cap && !aged[i]
    ensures Draining(all, aged, cap, i + 1, k + 1, now, out)
  {
  }

  lemma DrainEnds<T>(all: seq<T>, aged: seq<bool>, cap: int, i: nat, k: nat, now: seq<T>, out: seq<T>)
    requires |all| == |aged| && Draining(all, aged, cap, i, k, now, out)
    requires i == |all| || |out| >= cap
    ensures now == Kept(all, aged, cap) && out == Taken(all, aged, cap)
  {
  }

  // ------------------------------------------- removal refines removal from the arrivals

  lemma {:induction false} WithoutOfKey<T>(key: T -> Key, s: seq<T>, gone: set<T>, k: Key)
    ensures OfKey(key, Without(s, gone), k) == Without(OfKey(key, s, k), gone)
  {
    if s != [] {
      WithoutOfKey(key, s[1..], gone, k);
      OfKeyConcat(key, if s[0] in gone then [] else [s[0]], Without(s[1..], gone), k);
      WithoutConcat(if key(s[0]) == k then [s[0]] else [], OfKey(key, s[1..], k), gone);
    }
  }

  lemma {:induction false} WithoutConcat<T>(a: seq<T>, b: seq<T>, gone: set<T>)
    ensures Without(a + b, gone) == Without(a, gone) + Without(b, gone)
  {
    hide Without;
    if a == [] {
      assert a + b == b;
      WithoutNone<T>(gone);
    } else {
      WithoutConcat(a[1..], b, gone);
      assert a + b == [a[0]] + (a[1..] + b) && a == [a[0]] + a[1..];
      WithoutCons(a[0], a[1..] + b, gone);
      WithoutCons(a[0], a[1..], gone);
    }
  }

  lemma WithoutNone<T>(gone: set<T>)
    ensures Without([], gone) == []
  {
  }

  lemma WithoutCons<T>(x: T, s: seq<T>, gone: set<T>)
    ensures Without([x] + s, gone) == (if x in gone then [] else [x]) + Without(s, gone)
  {
    assert ([x] + s)[1..] == s;
  }

  lemma {:induction false} WithoutMember<T>(s: seq<T>, gone: set<T>, i: nat)
    requires i < |Without(s, gone)|
    ensures Without(s, gone)[i] in s && Without(s, gone)[i] !in gone
  {
    if s[0] in gone {
      WithoutMember(s[1..], gone, i);
    } else if i > 0 {
      WithoutMember(s[1..], gone, i - 1);
    }
  }

  lemma {:induction false} WithoutKeepsSorted<T>(key: T -> Key, s: seq<T>, gone: set<T>)
    requires Sorted(key, s)
    ensures Sorted(key, Without(s, gone))
  {
    if s != [] {
      WithoutKeepsSorted(key, s[1..], gone);
      var rest := Without(s[1..], gone);
      forall j | 0 <= j < |rest| ensures !Before(key(rest[j]), key(s[0])) {
        WithoutMember(s[1..], gone, j);
      }
    }
  }

  lemma RemovalRefinesStableSort<T>(key: T -> Key, s: seq<T>, arrivals: seq<T>, gone: set<T>)
    requires StableSortOf(key, s, arrivals)
    ensures StableSortOf(key, Without(s, gone), Without(arrivals, gone))
  {
    WithoutKeepsSorted(key, s, gone);
    forall k: Key ensures OfKey(key, Without(s, gone), k) == OfKey(key, Without(arrivals, gone), k) {
      WithoutOfKey(key, s, gone, k);
      WithoutOfKey(key, arrivals, gone, k);
    }
  }

  lemma {:induction false} WithoutNothing<T>(s: seq<T>, gone: set<T>)
    requires forall i | 0 <= i < |s| :: s[i] !in gone
    ensures Without(s, gone) == s
  {
    if s != [] {
      WithoutNothing(s[1..], gone);
    }
  }

  lemma WithoutInserted<T>(key: T -> Key, s: seq<T>, x: T, gone: set<T>)
    requires x in gone
    ensures Without(Insert(key, s, x), gone) == Without(s, gone)
  {
    hide Without, InsertAt;
    var p := InsertAt(key, s, x);
    WithoutBetween(s[..p], x, s[p..], gone);
    assert s == s[..p] + s[p..];
  }

  lemma WithoutBetween<T>(a: seq<T>, x: T, b: seq<T>, gone: set<T>)
    requires x in gone
    ensures Without(a + [x] + b, gone) == Without(a + b, gone)
  {
    hide Without;
    WithoutOne(x, gone);
    WithoutConcat(a + [x], b, gone);
    WithoutConcat(a, [x], gone);
    WithoutConcat(a, b, gone);
  }

  lemma WithoutOne<T>(x: T, gone: set<T>)
    requires x in gone
    ensures Without([x], gone) == []
  {
  }

  /** Pushing jobs into a level leaves the others in their order. */
  lemma {:induction false} WithoutAllInserted<T>(key: T -> Key, s: seq<T>, xs: seq<T>, gone: set<T>)
    requires forall x | x in xs :: x in gone
    ensures Without(InsertAll(key, s, xs), gone) == Without(s, gone)
    decreases |xs|
  {
    if xs != [] {
      WithoutInserted(key, s, xs[0], gone);
      WithoutAllInserted(key, Insert(key, s, xs[0]), xs[1..], gone);
    }
  }

  lemma PopIsRemoval<T>(s: seq<T>)
    requires s != [] && Distinct(s)
    ensures s[1..] == Without(s, {s[0]})
  {
    WithoutNothing(s[1..], {s[0]});
  }

  lemma {:induction false} DrainIsRemoval<T>(s: seq<T>, aged: seq<bool>, cap: int)
    requires |s| == |aged| && Distinct(s)
    ensures Kept(s, aged, cap) == Without(s, set x | x in Taken(s, aged, cap))
  {
    var gone := set x | x in Taken(s, aged, cap);
    if s == [] || cap <= 0 {
      WithoutNothing(s, gone);
    } else {
      var cap' := if aged[0] then cap - 1 else cap;
      var taken' := Taken(s[1..], aged[1..], cap');
      var gone' := set x | x in taken';
      DrainIsRemoval(s[1..], aged[1..], cap');
      if aged[0] {
        WithoutAnother(s[1..], gone', s[0]);
        assert gone == gone' + {s[0]};
      } else {
        assert gone == gone';
        TakenAreMembers(s[1..], aged[1..], cap');
      }
    }
  }

  lemma {:induction false} TakenAreMembers<T>(s: seq<T>, aged: seq<bool>, cap: int)
    requires |s| == |aged|
    ensures forall x | x in Taken(s, aged, cap) :: x in s
  {
    if s == [] || cap <= 0 {
    } else {
      TakenAreMembers(s[1..], aged[1..], if aged[0] then cap - 1 else cap);
    }
  }

  lemma {:induction false} WithoutAnother<T>(s: seq<T>, gone: set<T>, x: T)
    requires x !in s
    ensures Without(s, gone + {x}) == Without(s, gone)
  {
    if s != [] {
      WithoutAnother(s[1..], gone, x);
    }
  }

  // ------------------------------------------------------- whole histories of one level

  /** One call on a level. A drain carries the outcome of the age test, entry by entry. */
  datatype Op<T> = PushOp(job: T) | PopOp | DrainOp(aged: seq<bool>, cap: int)

  /** The list, and the jobs that are still in it in the order they arrived. */
  datatype LevelHistory<T> = LevelHistory(list: seq<T>, arrivals: seq<T>)

  /** A job is pushed only while it is not in the list. */
  ghost predicate Allowed<T>(h: LevelHistory<T>, op: Op<T>) {
    match op
    case PushOp(x) => x !in h.list
    case PopOp => true
    case DrainOp(aged, _) => |aged| == |h.list|
  }

  ghost function Do<T>(key: T -> Key, h: LevelHistory<T>, op: Op<T>): LevelHistory<T>
    requires Allowed(h, op)
  {
    match op
    case PushOp(x) => LevelHistory(Insert(key, h.list, x), h.arrivals + [x])
    case PopOp =>
      if h.list == [] then h
      else LevelHistory(h.list[1..], Without(h.arrivals, {h.list[0]}))
    case DrainOp(aged, cap) =>
      LevelHistory(Kept(h.list, aged, cap),
              Without(h.arrivals, set x | x in Taken(h.list, aged, cap)))
  }

  ghost predicate AllowedAll<T>(key: T -> Key, h: LevelHistory<T>, ops: seq<Op<T>>)
    decreases |ops|
  {
    ops == [] || (Allowed(h, ops[0]) && AllowedAll(key, Do(key, h, ops[0]), ops[1..]))
  }

  ghost function DoAll<T>(key: T -> Key, h: LevelHistory<T>, ops: seq<Op<T>>): LevelHistory<T>
    requires AllowedAll(key, h, ops)
    decreases |ops|
  {
    if ops == [] then h else DoAll(key, Do(key, h, ops[0]), ops[1..])
  }

  lemma DistinctByCount<T>(s: seq<T>)
    ensures Distinct(s) <==> forall x | x in s :: multiset(s)[x] == 1
  {
    if s != [] {
      DistinctByCount(s[1..]);
      assert s == [s[0]] + s[1..];
      if Distinct(s) {
        assert s[0] !in s[1..];
      }
      if forall x | x in s :: multiset(s)[x] == 1 {
        assert multiset(s)[s[0]] == 1;
        assert s[0] !in multiset(s[1..]);
        forall x | x in s[1..] ensures multiset(s[1..])[x] == 1 {
          assert x in s;
        }
        forall i, j | 0 <= i < j < |s| ensures s[i] != s[j] {
          assert s[j] == s[1..][j - 1];
          assert i > 0 ==> s[i] == s[1..][i - 1];
        }
      }
    }
  }

  lemma DoKeepsStableSort<T>(key: T -> Key, h: LevelHistory<T>, op: Op<T>)
    requires Allowed(h, op) && Distinct(h.list) && StableSortOf(key, h.list, h.arrivals)
    ensures var h' := Do(key, h, op); Distinct(h'.list) && StableSortOf(key, h'.list, h'.arrivals)
  {
    match op {
      case PushOp(x) =>
        PushRefinesStableSort(key, h.list, h.arrivals, x);
        DistinctByCount(h.list);
        DistinctByCount(Insert(key, h.list, x));
        assert x !in multiset(h.list);
        forall y | y in Insert(key, h.list, x) ensures multiset(Insert(key, h.list, x))[y] == 1 {
          assert y in multiset(Insert(key, h.list, x));
          assert y != x ==> y in multiset(h.list) && y in h.list;
        }
      case PopOp =>
        if h.list != [] {
          PopIsRemoval(h.list);
          RemovalRefinesStableSort(key, h.list, h.arrivals, {h.list[0]});
        }
      case DrainOp(aged, cap) =>
        var gone := set x | x in Taken(h.list, aged, cap);
        DrainIsRemoval(h.list, aged, cap);
        RemovalRefinesStableSort(key, h.list, h.arrivals, gone);
        DrainSplits(h.list, aged, cap);
        DistinctByCount(h.list);
        DistinctByCount(Kept(h.list, aged, cap));
        forall y | y in Kept(h.list, aged, cap) ensures multiset(Kept(h.list, aged, cap))[y] == 1 {
          assert y in multiset(Kept(h.list, aged, cap));
          assert y in multiset(h.list) && y in h.list;
        }
    }
  }

  /** After any history of pushes, pops and drains, the list is the stable sort, by priority
      descending and submit time ascending, of the jobs still present in arrival order. */
  lemma {:induction false} LevelRefinesStableSort<T>(key: T -> Key, h: LevelHistory<T>, ops: seq<Op<T>>)
    requires Distinct(h.list) && StableSortOf(key, h.list, h.arrivals)
    requires AllowedAll(key, h, ops)
    ensures var h' := DoAll(key, h, ops);
            && StableSortOf(key, h'.list, h'.arrivals)
            && (forall t: seq<T> | StableSortOf(key, t, h'.arrivals) :: t == h'.list)
    decreases |ops|
  {
    if ops == [] {
      forall t: seq<T> | StableSortOf(key, t, h.arrivals) ensures t == h.list {
        StableSortUnique(key, t, h.list);
      }
    } else {
      DoKeepsStableSort(key, h, ops[0]);
      LevelRefinesStableSort(key, Do(key, h, ops[0]), ops[1..]);
    }
  }
}
