/**
 The fixed-size history buffers of the scheduler (Gantt records and log entries). One class,
 generic in the record type and the capacity; the head counter only ever grows.
 */
module RingBuffer {

  lemma {:induction false} Gap(m: int, i: int, j: int)
    requires m > 0
    ensures i < j ==> m * i + m <= m * j
    decreases j - i
  {
    if i < j {
      Gap(m, i, j - 1);
      assert m * (j - 1) == m * j - m;
    }
  }

  /** Division with remainder is unique. */
  lemma RemainderIs(a: int, m: int, q: int, r: int)
    requires m > 0 && a == m * q + r && 0 <= r < m
    ensures a % m == r
  {
    var q', r' := a / m, a % m;
    assert a == m * q' + r';
    Gap(m, q, q');
    Gap(m, q', q);
  }

  lemma RemainderOfSum(a: int, b: int, m: int)
    requires m > 0
    ensures (a % m + b) % m == (a + b) % m
  {
    var q, r := (a % m + b) / m, (a % m + b) % m;
    assert a + b == m * (a / m + q) + r by {
      assert a == m * (a / m) + a % m;
      assert a % m + b == m * q + r;
      assert m * (a / m + q) == m * (a / m) + m * q;
    }
    RemainderIs(a + b, m, a / m + q, r);
  }

  /** Indices less than one capacity apart fall on different cells. */
  lemma DifferentCells(i: int, j: int, m: int)
    requires 0 < j - i < m
    ensures i % m != j % m
  {
    var d := j - i;
    RemainderOfSum(i, d, m);
    var r := i % m;
    if r + d < m {
      RemainderIs(r + d, m, 0, r + d);
    } else {
      RemainderIs(r + d, m, 1, r + d - m);
    }
  }

  function Min(a: int, b: int): int {
    if a < b then a else b
  }

  class RingBuffer<T(0)> {
    const cells: array<T>
    var head: nat
    var count: nat
    ghost var appended: seq<T>

    ghost predicate Valid()
      reads this, cells
    {
      && cells.Length > 0
      && head == |appended|
      && count == Min(|appended|, cells.Length)
      && (forall i | head - count <= i < head :: cells[i % cells.Length] == appended[i])
    }

    constructor (capacity: nat)
      requires capacity > 0
      ensures Valid() && appended == [] && cells.Length == capacity && fresh(cells)
    {
      cells := new T[capacity];
      head, count := 0, 0;
      appended := [];
    }

    method Append(x: T)
      requires Valid()
      modifies this, cells
      ensures Valid() && appended == old(appended) + [x]
    {
      ghost var oldHead := head;
      cells[head % cells.Length] := x;
      head := head + 1;
      if count < cells.Length {
        count := count + 1;
      }
      appended := appended + [x];
      forall i | head - count <= i < head ensures cells[i % cells.Length] == appended[i] {
        if i < oldHead {
          DifferentCells(i, oldHead, cells.Length);
        }
      }
    }

    lemma Sizes()
      requires Valid()
      ensures cells.Length > 0 && head == |appended| && count == Min(|appended|, cells.Length)
    {
    }

    /** Where the i-th of the n newest records is. */
    lemma HeldAt(n: nat, start: int, i: nat)
      requires Valid() && i < n <= count && start == (head - n + cells.Length) % cells.Length
      ensures head - n + i >= 0 && 0 <= (start + i) % cells.Length < cells.Length
      ensures cells[(start + i) % cells.Length] == appended[head - n + i]
    {
      CellOf(head - n, i, cells.Length);
    }

    /** Copies the newest records, oldest of them first. A negative maximum copies nothing. */
    method Snapshot(buf: array<T>, maxCount: int) returns (n: int)
      requires Valid() && buf != cells && maxCount <= buf.Length
      modifies buf
      ensures Valid() && appended == old(appended)
      ensures n <= maxCount && n <= cells.Length && n <= |appended|
      ensures n == maxCount || n == cells.Length || n == |appended|
      ensures n >= 0 ==> buf[..n] == appended[|appended| - n..]
      ensures n <= 0 ==> buf[..] == old(buf[..])
    {
      hide Valid;
      Sizes();
      n := if count < maxCount then count else maxCount;
      var start := (head - n + cells.Length) % cells.Length;
      var i := 0;
      while i < n
        invariant 0 <= i && (n >= 0 ==> i <= n) && (n <= 0 ==> i == 0)
        invariant Valid()
        invariant forall k | 0 <= k < i :: buf[k] == appended[head - n + k]
        invariant n <= 0 ==> buf[..] == old(buf[..])
      {
        HeldAt(n, start, i);
        buf[i] := cells[(start + i) % cells.Length];
        i := i + 1;
      }
    }
  }

  lemma CellOf(first: int, i: int, m: int)
    requires m > 0
    ensures ((first + m) % m + i) % m == (first + i) % m
  {
    RemainderOfSum(first + m, i, m);
    var q, r := (first + i) / m, (first + i) % m;
    assert first + m + i == m * (q + 1) + r by {
      assert first + i == m * q + r;
      assert m * (q + 1) == m * q + m;
    }
    RemainderIs(first + m + i, m, q + 1, r);
  }
}
