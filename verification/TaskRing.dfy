/**
 The bounded task queue of the pthread pool: an array used as a ring, with
 front and rear indices that move by one modulo the capacity.
 */
module TaskRing {

  datatype Ring<T> = Ring(slots: seq<T>, front: nat, rear: nat, size: nat)

  ghost predicate WellFormed<T>(r: Ring<T>) {
    && 0 < |r.slots|
    && r.front < |r.slots| && r.size <= |r.slots|
    && r.rear == (r.front + r.size) % |r.slots|
  }

  /** The queued elements, oldest first. */
  ghost function Contents<T>(r: Ring<T>): (s: seq<T>)
    requires 0 < |r.slots|
    ensures |s| == r.size
  {
    seq(r.size, k requires 0 <= k => r.slots[(r.front + k) % |r.slots|])
  }

  function Put<T>(r: Ring<T>, x: T): Ring<T>
    requires r.rear < |r.slots|
  {
    Ring(r.slots[r.rear := x], r.front, (r.rear + 1) % |r.slots|, r.size + 1)
  }

  function Drop<T>(r: Ring<T>): Ring<T>
    requires 0 < |r.slots| && 0 < r.size
  {
    r.(front := (r.front + 1) % |r.slots|, size := r.size - 1)
  }

  lemma MultipleAtLeast(d: int, n: nat)
    requires d >= 1
    ensures d * n >= n
  {
    assert d * n == (d - 1) * n + n;
  }

  lemma RemainderUnique(x: nat, q: nat, m: nat, n: nat)
    requires m < n && x == q * n + m
    ensures x % n == m
  {
    var d := x / n - q;
    assert d * n == m - x % n;
    if d >= 1 {
      MultipleAtLeast(d, n);
    } else if d <= -1 {
      MultipleAtLeast(-d, n);
    }
  }

  /** One wrap-around at most. */
  lemma ModWrap(a: nat, k: nat, n: nat)
    requires a < n && k <= n
    ensures (a + k) % n == if a + k < n then a + k else a + k - n
  {
    if a + k < n {
      RemainderUnique(a + k, 0, a + k, n);
    } else {
      RemainderUnique(a + k, 1, a + k - n, n);
    }
  }

  /** Storing at the rear appends. */
  lemma PutAppends<T>(r: Ring<T>, x: T)
    requires WellFormed(r) && r.size < |r.slots|
    ensures WellFormed(Put(r, x)) && Contents(Put(r, x)) == Contents(r) + [x]
  {
    var n, p := |r.slots|, Put(r, x);
    ModWrap(r.front, r.size, n);
    ModWrap(r.front, r.size + 1, n);
    ModWrap(r.rear, 1, n);
    forall k | 0 <= k <= r.size ensures Contents(p)[k] == (Contents(r) + [x])[k] {
      ModWrap(r.front, k, n);
    }
  }

  /** Reading at the front and moving it removes the oldest element. */
  lemma DropRemovesOldest<T>(r: Ring<T>)
    requires WellFormed(r) && 0 < r.size
    ensures Contents(r)[0] == r.slots[r.front]
    ensures WellFormed(Drop(r)) && Contents(Drop(r)) == Contents(r)[1..]
  {
    var n, d := |r.slots|, Drop(r);
    ModWrap(r.front, 0, n);
    ModWrap(r.front, 1, n);
    ModWrap(r.front, r.size, n);
    ModWrap(d.front, d.size, n);
    forall k | 0 <= k < d.size ensures Contents(d)[k] == Contents(r)[1..][k] {
      ModWrap(r.front, k + 1, n);
      ModWrap(d.front, k, n);
    }
  }
}
